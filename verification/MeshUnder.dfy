/**
 Where the layouts put an end device: each device is placed once (twice when it is also
 drawn in the attention band), and a cluster's members stand in a grid below their router.
 */
module MeshUnder {
  import opened Basics
  import opened Sequences
  import opened MeshTypes
  import opened MeshSeriation
  import opened MeshOrdering
  import opened MeshGeometry
  import opened MeshClusterMode
  import opened MeshCoverage
  import opened MeshLayout
  import opened MeshHomes

  /* ---------------- placed once ---------------- */

  ghost predicate Alone<T(!new)>(l: seq<Placed<T>>, x: T) {
    forall i, j :: 0 <= i < j < |l| && l[i].item == x ==> l[j].item != x
  }

  lemma AloneBoth<T(!new)>(a: seq<Placed<T>>, b: seq<Placed<T>>, x: T)
    requires Alone(a, x) && Alone(b, x) && !(Shows(a, x) && Shows(b, x))
    ensures Alone(a + b, x)
  {
    var l := a + b;
    forall i, j | 0 <= i < j < |l| && l[i].item == x ensures l[j].item != x {
      if i < |a| <= j { assert a[i] in a && b[j - |a|] in b; }
    }
  }

  lemma AloneGrid<T(!new)>(items: seq<T>, centerX: real, topY: real, columns: nat, x: T)
    requires Distinct(items)
    ensures Alone(Grid(items, centerX, topY, columns), x)
  {
  }

  /** A router is no member of its cluster, and no member is listed twice. */
  ghost predicate Proper<T(!new)>(c: Cluster<T>) { Distinct(c.members) && c.router !in c.members }

  lemma AloneColumn<T(!new)>(c: Cluster<T>, centerX: real, topY: real, columns: nat, x: T)
    requires Proper(c)
    ensures Alone(Column(c, centerX, topY, columns), x)
  {
    hide Grid, Alone, Shows;
    var router := [Placed(c.router, Point(centerX - NODE_W / 2.0, topY))];
    AloneGrid(c.members, centerX, topY + CELL_H, columns, x);
    ShowsGrid(c.members, centerX, topY + CELL_H, columns, x);
    AloneOne(router[0], x);
    AloneBoth(router, Grid(c.members, centerX, topY + CELL_H, columns), x);
  }

  lemma AloneOne<T(!new)>(p: Placed<T>, x: T)
    ensures Alone([p], x) && (Shows([p], x) <==> p.item == x)
  {
    assert p in [p];
  }

  /** No item is in two clusters. */
  ghost predicate InOne<T(!new)>(clusters: seq<Cluster<T>>, x: T) {
    && (forall i :: 0 <= i < |clusters| ==> Proper(clusters[i]))
    && forall i, j :: 0 <= i < |clusters| && 0 <= j < |clusters| && InCluster(clusters[i], x) && InCluster(clusters[j], x) ==>
         i == j
  }

  lemma {:induction false} AloneRow<T(!new)>(
    shape: BandShape, clusters: seq<Cluster<T>>, row: seq<nat>, left: real, topY: real, x: T)
    requires Indexes(row, |clusters|) && Distinct(row) && InOne(clusters, x)
    ensures Alone(Row(shape, clusters, row, left, topY), x)
  {
    hide Column, Alone, Shows, InCluster, Proper;
    if row == [] {
      AloneNothing(x);
    } else {
      var before, c := row[..|row| - 1], clusters[row[|row| - 1]];
      var center := left + RowWidth(shape, clusters, before) + WidthOf(shape, c) / 2.0;
      AloneRow(shape, clusters, before, left, topY, x);
      AloneColumn(c, center, topY, shape.columns(|c.members|), x);
      ShowsRow(shape, clusters, before, left, topY, x);
      ShowsColumn(c, center, topY, shape.columns(|c.members|), x);
      AloneBoth(Row(shape, clusters, before, left, topY), Column(c, center, topY, shape.columns(|c.members|)), x);
    }
  }

  lemma AloneNothing<T(!new)>(x: T)
    ensures Alone([], x)
  {
  }

  /** No index stands in two places. */
  ghost predicate AllOnce(rows: seq<seq<nat>>) {
    && (forall r :: 0 <= r < |rows| ==> Distinct(rows[r]))
    && forall r, s, i, j :: 0 <= r < s < |rows| && 0 <= i < |rows[r]| && 0 <= j < |rows[s]| ==> rows[r][i] != rows[s][j]
  }

  lemma {:induction false} AloneBands<T(!new)>(
    shape: BandShape, clusters: seq<Cluster<T>>, rows: seq<seq<nat>>, topY: real, x: T)
    requires AllIndexes(rows, |clusters|) && AllOnce(rows) && InOne(clusters, x)
    ensures Alone(Bands(shape, clusters, rows, topY), x)
  {
    hide Row, RowWidth, BandTop, Alone, Shows, InCluster, Proper;
    if rows == [] {
      AloneNothing(x);
    } else {
      var above, row := rows[..|rows| - 1], rows[|rows| - 1];
      var left, mid := -RowWidth(shape, clusters, row) / 2.0, BandTop(shape, clusters, above, topY);
      AloneBands(shape, clusters, above, topY, x);
      AloneRow(shape, clusters, row, left, mid, x);
      ShowsBands(shape, clusters, above, topY, x);
      ShowsRow(shape, clusters, row, left, mid, x);
      AloneBoth(Bands(shape, clusters, above, topY), Row(shape, clusters, row, left, mid), x);
    }
  }

  /** A row holds the indices of its own stretch, each once. */
  lemma RowStretch(n: nat, perRow: nat, r: nat)
    requires perRow > 0 && r * perRow < n
    ensures
      var row := RowIndices(n, perRow, r);
      Distinct(row) && forall i :: 0 <= i < |row| ==> r * perRow <= row[i] < r * perRow + perRow
  {
  }

  lemma RowsOnce(n: nat, perRow: nat)
    requires perRow > 0
    ensures AllOnce(BandRows(n, perRow))
  {
    hide RowIndices;
    var rows := BandRows(n, perRow);
    RowStarts(n, perRow);
    forall r | 0 <= r < |rows|
      ensures Distinct(rows[r]) && forall i :: 0 <= i < |rows[r]| ==> r * perRow <= rows[r][i] < r * perRow + perRow
    {
      RowStretch(n, perRow, r);
    }
    forall r, s, i, j | 0 <= r < s < |rows| && 0 <= i < |rows[r]| && 0 <= j < |rows[s]| ensures rows[r][i] != rows[s][j] {
      MulStep(s, r, perRow);
    }
  }

  /** Each item is in one group, and there once. */
  ghost predicate OneGroup<T(!new)>(g: Groups<T>, x: T) {
    && Distinct(g.coordinators) && Distinct(g.unassigned) && Distinct(g.limited) && InOne(g.clusters, x)
    && !(x in g.coordinators && (InClusters(g.clusters, x) || x in g.unassigned || x in g.limited))
    && !(InClusters(g.clusters, x) && (x in g.unassigned || x in g.limited))
    && !(x in g.unassigned && x in g.limited)
  }

  lemma AloneRest<T(!new)>(g: Groups<T>, topY: real, cols: nat, x: T)
    requires OneGroup(g, x)
    ensures Alone(Rest(g, topY, cols), x)
  {
    hide Grid, Shows, Alone, InOne, InClusters;
    var mid, limitedCols := LimitedTop(g, topY, cols), GroupCols(|g.limited|);
    AloneGrid(g.unassigned, 0.0, topY, cols, x);
    AloneGrid(g.limited, 0.0, mid, limitedCols, x);
    ShowsGrid(g.unassigned, 0.0, topY, cols, x);
    ShowsGrid(g.limited, 0.0, mid, limitedCols, x);
    AloneBoth(Grid(g.unassigned, 0.0, topY, cols), Grid(g.limited, 0.0, mid, limitedCols), x);
  }

  lemma AloneRouters<T(!new)>(shape: BandShape, g: Groups<T>, x: T)
    requires InOne(g.clusters, x)
    ensures Alone(RouterBands(shape, g), x)
  {
    hide Bands, BandRows, Alone, InOne;
    RowsOnce(|g.clusters|, Max(1, shape.perRow));
    AloneBands(shape, g.clusters, RowsOf(shape, g), FIRST_BAND, x);
  }

  lemma AloneHierarchy<T(!new)>(shape: BandShape, g: Groups<T>, coordinatorX: real, x: T)
    requires OneGroup(g, x)
    ensures Alone(Hierarchy(shape, g, coordinatorX), x)
  {
    hide Grid, Shows, RouterBands, Rest, GroupTop, GroupCols, Alone, InOne, InClusters;
    var bands, row := RouterBands(shape, g), Grid(g.coordinators, coordinatorX, 0.0, Max(1, |g.coordinators|));
    var rest := Rest(g, GroupTop(shape, g), GroupCols(|g.unassigned| + 1));
    AloneRouters(shape, g, x);
    AloneGrid(g.coordinators, coordinatorX, 0.0, Max(1, |g.coordinators|), x);
    AloneRest(g, GroupTop(shape, g), GroupCols(|g.unassigned| + 1), x);
    ShowsRouterBands(shape, g, x);
    ShowsGrid(g.coordinators, coordinatorX, 0.0, Max(1, |g.coordinators|), x);
    ShowsRest(g, GroupTop(shape, g), GroupCols(|g.unassigned| + 1), x);
    AloneBoth(bands, row, x);
    ShowsBoth(bands, row, x);
    AloneBoth(bands + row, rest, x);
  }

  lemma {:induction false} AloneCells<T(!new)>(clusters: seq<Cluster<T>>, k: nat, x: T)
    requires k <= |clusters| && InOne(clusters, x)
    ensures Alone(Cells(clusters, k), x)
  {
    hide Shows, InCluster, Column, CenterX, CenterY, Alone, Proper;
    if k == 0 {
      AloneNothing(x);
    } else {
      var n := |clusters|;
      AloneCells(clusters, k - 1, x);
      AloneColumn(clusters[k - 1], CenterX(n, PerRow(n), k - 1), CenterY(PerRow(n), k - 1), 2, x);
      ShowsCells(clusters, k - 1, x);
      ShowsColumn(clusters[k - 1], CenterX(n, PerRow(n), k - 1), CenterY(PerRow(n), k - 1), 2, x);
      AloneBoth(Cells(clusters, k - 1), Cell(n, clusters[k - 1], k - 1), x);
    }
  }

  lemma AloneClusterMode<T(!new)>(g: Groups<T>, x: T)
    requires OneGroup(g, x)
    ensures Alone(ClusterMode(g), x)
  {
    hide Grid, Shows, Cells, Rest, CellsBottom, GroupCols, Alone, InOne, InCluster;
    var n := |g.clusters|;
    var row, cells := Grid(g.coordinators, 0.0, 0.0, Max(1, |g.coordinators|)), Cells(g.clusters, n);
    var rest := Rest(g, CellsBottom(n), GroupCols(|g.unassigned|));
    AloneGrid(g.coordinators, 0.0, 0.0, Max(1, |g.coordinators|), x);
    AloneCells(g.clusters, n, x);
    AloneRest(g, CellsBottom(n), GroupCols(|g.unassigned|), x);
    ShowsGrid(g.coordinators, 0.0, 0.0, Max(1, |g.coordinators|), x);
    ShowsCells(g.clusters, n, x);
    ShowsRest(g, CellsBottom(n), GroupCols(|g.unassigned|), x);
    AloneBoth(row, cells, x);
    ShowsBoth(row, cells, x);
    AloneBoth(row + cells, rest, x);
  }

  /* ---------------- the groups hold each device once ---------------- */

  lemma DistinctDevices(devices: seq<Device>)
    requires UniqueIds(devices)
    ensures Distinct(devices)
  {
    forall i, j | 0 <= i < j < |devices| ensures devices[i] != devices[j] {
      assert Map(IdOf(), devices)[i] != Map(IdOf(), devices)[j];
    }
  }

  lemma KeptOnce(devices: seq<Device>, p: Device -> bool, le: (Device, Device) -> bool)
    requires Distinct(devices)
    ensures Distinct(SortBy(le, Filter(p, devices)))
  {
    hide SortBy, Filter;
    FilterDistinct(p, devices);
    PermutedDistinct(Filter(p, devices), SortBy(le, Filter(p, devices)));
  }

  lemma ClusterProper(rank: string -> int, devices: seq<Device>, edges: seq<Edge>, k: nat)
    requires UniqueIds(devices) && k < |GroupsOf(rank, devices, edges).clusters|
    ensures Proper(GroupsOf(rank, devices, edges).clusters[k])
  {
    hide GroupsOf, UniqueIds, SortBy, Filter, Distinct, Home, Assigned;
    DistinctDevices(devices);
    ClusterAt(rank, devices, edges, k);
    KeptOnce(devices, HasRole(EndDevice), ByName(rank));
    var c := GroupsOf(rank, devices, edges).clusters[k];
    var coordinators, routers := Filter(HasRole(Coordinator), devices), Filter(HasRole(Router), devices);
    FilterDistinct(HomeIs(Assigned(devices, edges), routers, coordinators, Some(c.router.id)),
                   SortBy(ByName(rank), Filter(HasRole(EndDevice), devices)));
    MembersExactly(rank, devices, edges, k, c.router);
  }

  /** Routers are under no router, and an end device is under one at most. */
  lemma UnderOne(devices: seq<Device>, edges: seq<Edge>, d: Device, r: Device, r': Device)
    requires UniqueIds(devices) && r in devices && r.role == Router && r' in devices && r'.role == Router
    requires Under(devices, edges, d, r) && Under(devices, edges, d, r')
    ensures r == r'
  {
    hide UniqueIds, Assigned, Home, Under;
    HomeIsUnder(devices, edges, d, r);
    HomeIsUnder(devices, edges, d, r');
    SameDevice(devices, r, r');
  }

  lemma ClusterRouters(rank: string -> int, devices: seq<Device>, edges: seq<Edge>)
    requires UniqueIds(devices)
    ensures
      var clusters := GroupsOf(rank, devices, edges).clusters;
      forall i, j :: 0 <= i < |clusters| && 0 <= j < |clusters| && clusters[i].router == clusters[j].router ==> i == j
  {
    hide OrderedRouters, Home, Assigned, UniqueIds, SortBy, Prominent;
    var routers := Filter(HasRole(Router), devices);
    DistinctDevices(devices);
    FilterDistinct(HasRole(Router), devices);
    UniqueRouters(devices);
    OrderingIsPermutation(rank, routers, edges);
    PermutedDistinct(routers, OrderedRouters(rank, routers, edges));
  }

  lemma InOneCluster(rank: string -> int, devices: seq<Device>, edges: seq<Edge>, x: Device)
    requires UniqueIds(devices)
    ensures InOne(GroupsOf(rank, devices, edges).clusters, x)
  {
    hide GroupsOf, UniqueIds, Proper, Under;
    var clusters := GroupsOf(rank, devices, edges).clusters;
    ClusterRouters(rank, devices, edges);
    forall i | 0 <= i < |clusters| ensures Proper(clusters[i]) { ClusterProper(rank, devices, edges, i); }
    forall i, j | 0 <= i < |clusters| && 0 <= j < |clusters| && InCluster(clusters[i], x) && InCluster(clusters[j], x)
      ensures i == j
    {
      ClusterAt(rank, devices, edges, i);
      ClusterAt(rank, devices, edges, j);
      MembersExactly(rank, devices, edges, i, x);
      MembersExactly(rank, devices, edges, j, x);
      if x.role == EndDevice { UnderOne(devices, edges, x, clusters[i].router, clusters[j].router); }
    }
  }

  lemma InOneGroup(rank: string -> int, devices: seq<Device>, edges: seq<Edge>, x: Device)
    requires UniqueIds(devices)
    ensures OneGroup(GroupsOf(rank, devices, edges), x)
  {
    hide UniqueIds, OrderedRouters, SortBy, Home, Assigned, Under, InOne, NeighbourDegree;
    var g := GroupsOf(rank, devices, edges);
    DistinctDevices(devices);
    InOneCluster(rank, devices, edges, x);
    KeptOnce(devices, HasRole(Coordinator), ByProminence(rank, edges));
    KeptOnce(devices, HasRole(UnknownRole), ByProminence(rank, edges));
    KeptOnce(devices, HasRole(EndDevice), ByName(rank));
    FilterMembers(HasRole(Coordinator), devices);
    FilterMembers(HasRole(UnknownRole), devices);
    var coordinators, routers := Filter(HasRole(Coordinator), devices), Filter(HasRole(Router), devices);
    FilterDistinct(HomeIs(Assigned(devices, edges), routers, coordinators, None),
                   SortBy(ByName(rank), Filter(HasRole(EndDevice), devices)));
    UnassignedExactly(rank, devices, edges, x);
    forall k | 0 <= k < |g.clusters| && InCluster(g.clusters[k], x)
      ensures x.role == Router || (x.role == EndDevice && x !in g.unassigned)
    {
      ClusterAt(rank, devices, edges, k);
      MembersExactly(rank, devices, edges, k, x);
    }
  }

  /* ---------------- a cluster in the picture ---------------- */

  /** Every placement of a column with this head is in the list. */
  ghost predicate HasColumn<T>(l: seq<Placed<T>>, c: Cluster<T>, centerX: real, topY: real, columns: nat) {
    forall p :: p in Column(c, centerX, topY, columns) ==> p in l
  }

  /** Where the column of cluster `j` of a row is centred. */
  function RowCenter<T>(shape: BandShape, clusters: seq<Cluster<T>>, row: seq<nat>, left: real, j: nat): real
    requires Indexes(row, |clusters|) && j < |row|
  {
    left + RowWidth(shape, clusters, row[..j]) + WidthOf(shape, clusters[row[j]]) / 2.0
  }

  lemma {:induction false} ColumnInRow<T>(
    shape: BandShape, clusters: seq<Cluster<T>>, row: seq<nat>, left: real, topY: real, j: nat)
    returns (centerX: real)
    requires Indexes(row, |clusters|) && j < |row|
    ensures
      var c := clusters[row[j]];
      HasColumn(Row(shape, clusters, row, left, topY), c, centerX, topY, shape.columns(|c.members|))
    ensures centerX == RowCenter(shape, clusters, row, left, j)
  {
    hide Column;
    var before, c := row[..|row| - 1], clusters[row[|row| - 1]];
    assert before[..|before|] == before && before[..j] == row[..j];
    if j == |row| - 1 {
      centerX := left + RowWidth(shape, clusters, before) + WidthOf(shape, c) / 2.0;
    } else {
      centerX := ColumnInRow(shape, clusters, before, left, topY, j);
    }
  }

  lemma {:induction false} ColumnInBands<T>(
    shape: BandShape, clusters: seq<Cluster<T>>, rows: seq<seq<nat>>, topY: real, r: nat, j: nat)
    returns (centerX: real, top: real)
    requires AllIndexes(rows, |clusters|) && r < |rows| && j < |rows[r]|
    ensures
      var c := clusters[rows[r][j]];
      HasColumn(Bands(shape, clusters, rows, topY), c, centerX, top, shape.columns(|c.members|))
    ensures top == BandTop(shape, clusters, rows[..r], topY)
    ensures centerX == RowCenter(shape, clusters, rows[r], -RowWidth(shape, clusters, rows[r]) / 2.0, j)
  {
    hide Column, Row, RowWidth, BandTop, RowCenter;
    var above, row := rows[..|rows| - 1], rows[|rows| - 1];
    assert above[..r] == rows[..r];
    if r == |rows| - 1 {
      top := BandTop(shape, clusters, above, topY);
      centerX := ColumnInRow(shape, clusters, row, -RowWidth(shape, clusters, row) / 2.0, top, j);
    } else {
      centerX, top := ColumnInBands(shape, clusters, above, topY, r, j);
    }
  }

  /** The place of cluster `k` in the bands: rows of `perRow`, every other one from right to left. */
  ghost predicate RowPlace<T>(shape: BandShape, clusters: seq<Cluster<T>>, k: nat, centerX: real, top: real) {
    var perRow := Max(1, shape.perRow);
    var rows := BandRows(|clusters|, perRow);
    var r := k / perRow;
    && r < |rows|
    && var j := if r % 2 == 1 then |rows[r]| - 1 - k % perRow else k % perRow;
       && 0 <= j < |rows[r]| && rows[r][j] == k
       && top == BandTop(shape, clusters, rows[..r], FIRST_BAND)
       && centerX == RowCenter(shape, clusters, rows[r], -RowWidth(shape, clusters, rows[r]) / 2.0, j)
  }

  lemma ColumnInHierarchy<T>(shape: BandShape, g: Groups<T>, coordinatorX: real, k: nat) returns (centerX: real, top: real)
    requires k < |g.clusters|
    ensures HasColumn(Hierarchy(shape, g, coordinatorX), g.clusters[k], centerX, top, shape.columns(|g.clusters[k].members|))
    ensures RowPlace(shape, g.clusters, k, centerX, top)
  {
    hide Column, Bands, BandRows, Grid, Rest, RowCenter, BandTop, RowWidth;
    var r, j := RowsCover(|g.clusters|, Max(1, shape.perRow), k);
    centerX, top := ColumnInBands(shape, g.clusters, RowsOf(shape, g), FIRST_BAND, r, j);
  }

  lemma ColumnInCells<T>(g: Groups<T>, k: nat) returns (centerX: real, top: real)
    requires k < |g.clusters|
    ensures HasColumn(ClusterMode(g), g.clusters[k], centerX, top, 2)
  {
    hide Column, Cells, Grid, Rest, CenterX, CenterY, PerRow;
    var n := |g.clusters|;
    PerRowPositive(n);
    centerX, top := CenterX(n, PerRow(n), k), CenterY(PerRow(n), k);
    forall p | p in Cell(n, g.clusters[k], k) ensures p in Cells(g.clusters, n) { CellsMember(g.clusters, n, p); }
  }

  /* ---------------- what is written last ---------------- */

  /** The only placement of a device is where it ends up. */
  lemma AloneApplied(l: seq<Placed<Device>>, p: Placed<Device>)
    requires p in l && Alone(l, p.item) && forall q :: q in l && q.item.id == p.item.id ==> q.item == p.item
    ensures p.item.id in Apply(map[], l) && Apply(map[], l)[p.item.id] == p.at
  {
    hide Apply;
    ApplyMeaning(l, p.item.id);
    var j :| 0 <= j < |l| && l[j] == p;
    assert l[j].item.id == p.item.id;
    var i :| 0 <= i < |l| && l[i].item.id == p.item.id && l[i].at == Apply(map[], l)[p.item.id];
    assert l[i] in l;
  }

  /** The bands of the modes that draw a hierarchy. */
  function ShapeOf(mode: Mode): BandShape { if mode == Backbone then BACKBONE else SMART }

  lemma AloneInLayout(rank: string -> int, devices: seq<Device>, edges: seq<Edge>, mode: Mode, x: Device)
    requires UniqueIds(devices) && (mode == Health ==> !HasIssue(x))
    ensures Alone(Placements(rank, devices, edges, mode), x)
  {
    hide Hierarchy, ClusterMode, GroupsOf, UniqueIds, Grid, OneGroup, Shows, CoordinatorX, HasIssue, AttentionTop, Alone;
    var g, coordinators := GroupsOf(rank, devices, edges), Filter(HasRole(Coordinator), devices);
    InOneGroup(rank, devices, edges, x);
    var shape := ShapeOf(mode);
    var at := CoordinatorX(Apply(map[], RouterBands(shape, g)), coordinators, g.clusters, edges);
    AloneHierarchy(shape, g, at, x);
    AloneClusterMode(g, x);
    if mode == Health {
      AloneAttention(rank, devices, edges, x);
      AloneBoth(Hierarchy(shape, g, at), Attention(Issues(rank, devices, edges)), x);
    }
  }

  lemma AloneAttention(rank: string -> int, devices: seq<Device>, edges: seq<Edge>, x: Device)
    requires UniqueIds(devices) && !HasIssue(x)
    ensures Alone(Attention(Issues(rank, devices, edges)), x) && !Shows(Attention(Issues(rank, devices, edges)), x)
  {
    hide Grid, Shows, AttentionTop, Alone, UniqueIds, HasIssue, NeighbourDegree, SortBy;
    var issues := Issues(rank, devices, edges);
    DistinctDevices(devices);
    KeptOnce(devices, Flagged(), ByProminence(rank, edges));
    FilterDistinct(NotCoordinator(), Prominent(rank, edges, Filter(Flagged(), devices)));
    FilterMembers(Flagged(), devices);
    FilterMembers(NotCoordinator(), Prominent(rank, edges, Filter(Flagged(), devices)));
    AloneNothing(x);
    ShowsNothing(x);
    if issues != [] {
      AloneGrid(issues, 0.0, AttentionTop(|issues|), AttentionCols(|issues|), x);
      ShowsGrid(issues, 0.0, AttentionTop(|issues|), AttentionCols(|issues|), x);
    }
  }

  lemma PlacedInLayout(rank: string -> int, devices: seq<Device>, edges: seq<Edge>, mode: Mode, p: Placed<Device>)
    requires UniqueIds(devices) && p in Placements(rank, devices, edges, mode) && (mode == Health ==> !HasIssue(p.item))
    ensures p.item in devices
    ensures
      var m := Layout(rank, devices, edges, mode);
      p.item.id in m && m[p.item.id] == p.at
  {
    hide Placements, UniqueIds, Layout, Alone, Apply, HasIssue;
    var l := Placements(rank, devices, edges, mode);
    EveryDevicePlaced(rank, devices, edges, mode);
    AloneInLayout(rank, devices, edges, mode, p.item);
    forall q | q in l ensures q.item in devices {
      assert Shows(l, q.item);
      PlacementsShow(rank, devices, edges, mode, q.item);
    }
    forall q | q in l && q.item.id == p.item.id ensures q.item == p.item { SameDevice(devices, q.item, p.item); }
    AloneApplied(l, p);
  }

  /* ---------------- members below their router ---------------- */

  /** In how many columns a mode draws the members of a cluster. */
  function MemberColumns(mode: Mode, members: nat): (columns: nat)
    ensures 1 <= columns <= 2 && (mode == Backbone ==> columns == 1)
  {
    match mode
    case Clusters => 2
    case Backbone => 1
    case _ => if members <= 2 then 1 else 2
  }

  lemma ColumnInLayout(rank: string -> int, devices: seq<Device>, edges: seq<Edge>, mode: Mode, k: nat)
    returns (centerX: real, top: real)
    requires k < |GroupsOf(rank, devices, edges).clusters|
    ensures
      var c := GroupsOf(rank, devices, edges).clusters[k];
      HasColumn(Placements(rank, devices, edges, mode), c, centerX, top, MemberColumns(mode, |c.members|))
    ensures mode != Clusters ==> RowPlace(ShapeOf(mode), GroupsOf(rank, devices, edges).clusters, k, centerX, top)
  {
    hide Hierarchy, ClusterMode, GroupsOf, Column, CoordinatorX, Attention, Issues, RowPlace;
    var g, coordinators := GroupsOf(rank, devices, edges), Filter(HasRole(Coordinator), devices);
    var shape := ShapeOf(mode);
    var at := CoordinatorX(Apply(map[], RouterBands(shape, g)), coordinators, g.clusters, edges);
    if mode == Clusters {
      centerX, top := ColumnInCells(g, k);
    } else {
      centerX, top := ColumnInHierarchy(shape, g, at, k);
    }
  }

  lemma ColumnParts<T>(c: Cluster<T>, centerX: real, topY: real, columns: nat, i: nat)
    requires i < |c.members| && columns > 0
    ensures Placed(c.router, Point(centerX - NODE_W / 2.0, topY)) in Column(c, centerX, topY, columns)
    ensures Placed(c.members[i], GridPoint(|c.members|, i, centerX, topY + CELL_H, columns)) in
              Column(c, centerX, topY, columns)
  {
    var column := Column(c, centerX, topY, columns);
    assert column[0] in column && column[1 + i] in column;
    assert column[1 + i] == Grid(c.members, centerX, topY + CELL_H, columns)[i];
    assert Max(1, columns) == columns;
  }

  /** Member `i` of a cluster stands at point `i` of a grid centred below its router. */
  ghost predicate StandsBelow(m: Positions, c: Cluster<Device>, i: nat, columns: nat)
    requires i < |c.members| && columns > 0
  {
    && c.router.id in m && c.members[i].id in m
    && m[c.members[i].id] ==
         GridPoint(|c.members|, i, m[c.router.id].x + NODE_W / 2.0, m[c.router.id].y + CELL_H, columns)
  }

  lemma MemberPoint(
    rank: string -> int, devices: seq<Device>, edges: seq<Edge>, mode: Mode, c: Cluster<Device>, i: nat)
    requires UniqueIds(devices) && c in GroupsOf(rank, devices, edges).clusters && i < |c.members|
    requires mode == Health ==> !HasIssue(c.router) && !HasIssue(c.members[i])
    ensures StandsBelow(Layout(rank, devices, edges, mode), c, i, MemberColumns(mode, |c.members|))
  {
    hide Placements, UniqueIds, Layout, GroupsOf, HasIssue, GridPoint, Column;
    var g := GroupsOf(rank, devices, edges);
    var k :| 0 <= k < |g.clusters| && g.clusters[k] == c;
    var cols := MemberColumns(mode, |c.members|);
    var centerX, top := ColumnInLayout(rank, devices, edges, mode, k);
    ColumnParts(c, centerX, top, cols, i);
    PlacedInLayout(rank, devices, edges, mode, Placed(c.router, Point(centerX - NODE_W / 2.0, top)));
    PlacedInLayout(rank, devices, edges, mode, Placed(c.members[i], GridPoint(|c.members|, i, centerX, top + CELL_H, cols)));
  }

  /** The box of `d` stands below that of `r`, in the columns `r` heads. */
  ghost predicate DrawnBelow(m: Positions, r: Device, d: Device, columns: nat) {
    && r.id in m && d.id in m && m[r.id].y + CELL_H <= m[d.id].y
    && m[r.id].x + NODE_W / 2.0 - Wide(columns) / 2.0 <= m[d.id].x
    && m[d.id].x + CELL_W <= m[r.id].x + NODE_W / 2.0 + Wide(columns) / 2.0
  }

  /**
   In every mode an end device is drawn below the router its strongest claim puts it under, in one column or two;
   flagged devices of the health mode stand in the attention band instead.
   */
  lemma DrawnUnderRouter(rank: string -> int, devices: seq<Device>, edges: seq<Edge>, mode: Mode, d: Device, r: Device)
    requires UniqueIds(devices) && d in devices && d.role == EndDevice && r in devices && r.role == Router
    requires Under(devices, edges, d, r) && (mode == Health ==> !HasIssue(d) && !HasIssue(r))
    ensures DrawnBelow(Layout(rank, devices, edges, mode), r, d, if mode == Backbone then 1 else 2)
  {
    hide UniqueIds, Layout, GroupsOf, HasIssue, Under, GridPoint;
    RouterHasCluster(rank, devices, edges, r);
    var g := GroupsOf(rank, devices, edges);
    var k :| 0 <= k < |g.clusters| && g.clusters[k].router == r;
    MembersExactly(rank, devices, edges, k, d);
    var c := g.clusters[k];
    var i :| 0 <= i < |c.members| && c.members[i] == d;
    MemberPoint(rank, devices, edges, mode, c, i);
    var m, cols := Layout(rank, devices, edges, mode), MemberColumns(mode, |c.members|);
    GridBounds(|c.members|, i, m[r.id].x + NODE_W / 2.0, m[r.id].y + CELL_H, cols);
  }
}
