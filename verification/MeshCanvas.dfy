/**
 The layout code itself: placers that write into one shared table of positions,
 each proved to write exactly the placements its specification lists.
 */
module MeshCanvas {
  import opened Basics
  import opened Sequences
  import opened MeshTypes
  import opened MeshSeriation
  import opened MeshOrdering
  import opened MeshGeometry
  import opened MeshClusterMode
  import opened MeshLayout

  /** Counts, per device, the latest neighbour edges it is an end of. */
  method NeighbourDegrees(edges: seq<Edge>) returns (degree: map<string, int>)
    ensures Degrees(degree, edges)
  {
    hide TotalIn, Bump, NeighbourDegree;
    degree := map[];
    NoDegrees();
    for i := 0 to |edges|
      invariant Degrees(degree, edges[..i])
    {
      var edge := edges[i];
      assert edges[..i + 1] == edges[..i] + [edge];
      DegreesStep(degree, edges[..i], edge);
      if !edge.evidence.LatestNeighbor? { continue; }
      degree := Bump(Bump(degree, edge.source, 1), edge.target, 1);
    }
    assert edges[..|edges|] == edges;
  }

  ghost predicate Degrees(degree: map<string, int>, edges: seq<Edge>) {
    forall v :: TotalIn(degree, v) == NeighbourDegree(edges, v)
  }

  lemma NoDegrees()
    ensures Degrees(map[], [])
  {
  }

  lemma DegreesStep(degree: map<string, int>, edges: seq<Edge>, e: Edge)
    requires Degrees(degree, edges)
    ensures Degrees(if e.evidence.LatestNeighbor? then Bump(Bump(degree, e.source, 1), e.target, 1) else degree, edges + [e])
  {
    hide TotalIn, Bump;
    forall v ensures NeighbourDegree(edges + [e], v) == NeighbourDegree(edges, v) + EndsAt(v)(e) {
      TotalAppend(EndsAt(v), edges, e);
    }
    hide NeighbourDegree;
    forall v ensures TotalIn(Bump(Bump(degree, e.source, 1), e.target, 1), v) ==
                     TotalIn(degree, v) + (if e.source == v then 1 else 0) + (if e.target == v then 1 else 0) {
      BumpAgain(degree, e.source, e.target, v);
    }
  }

  lemma BumpAgain<T>(totals: map<T, int>, a: T, b: T, v: T)
    ensures TotalIn(Bump(Bump(totals, a, 1), b, 1), v) ==
            TotalIn(totals, v) + (if a == v then 1 else 0) + (if b == v then 1 else 0)
  {
  }

  function ByDegree(rank: string -> int, degree: map<string, int>): (Device, Device) -> bool {
    (a: Device, b: Device) =>
      var da, db := TotalIn(degree, a.id), TotalIn(degree, b.id);
      da > db || (da == db && ByName(rank)(a, b))
  }

  /** Sorted by degree, then name, then id. */
  method StableSort(rank: string -> int, devices: seq<Device>, degree: map<string, int>, ghost edges: seq<Edge>)
    returns (sorted: seq<Device>)
    requires Degrees(degree, edges)
    ensures sorted == Prominent(rank, edges, devices)
  {
    hide TotalIn, NeighbourDegree, ByName, SortBy;
    sorted := SortBy(ByDegree(rank, degree), devices);
    forall a, b ensures ByDegree(rank, degree)(a, b) == ByProminence(rank, edges)(a, b) {
      assert TotalIn(degree, a.id) == NeighbourDegree(edges, a.id);
      assert TotalIn(degree, b.id) == NeighbourDegree(edges, b.id);
    }
    SortBySame(ByDegree(rank, degree), ByProminence(rank, edges), devices);
  }

  /** The devices of each role, in their listed order. */
  method ClassifyDevices(devices: seq<Device>)
    returns (coordinators: seq<Device>, routers: seq<Device>, ends: seq<Device>, limited: seq<Device>)
    ensures coordinators == Filter(HasRole(Coordinator), devices)
    ensures routers == Filter(HasRole(Router), devices)
    ensures ends == Filter(HasRole(EndDevice), devices)
    ensures limited == Filter(HasRole(UnknownRole), devices)
  {
    coordinators, routers, ends, limited := [], [], [], [];
    for i := 0 to |devices|
      invariant coordinators == Filter(HasRole(Coordinator), devices[..i])
      invariant routers == Filter(HasRole(Router), devices[..i])
      invariant ends == Filter(HasRole(EndDevice), devices[..i])
      invariant limited == Filter(HasRole(UnknownRole), devices[..i])
    {
      assert devices[..i + 1][..i] == devices[..i];
      match devices[i].role
      case Coordinator => coordinators := coordinators + [devices[i]];
      case Router => routers := routers + [devices[i]];
      case EndDevice => ends := ends + [devices[i]];
      case UnknownRole => limited := limited + [devices[i]];
    }
    assert devices[..|devices|] == devices;
  }

  function MembersOf(members: map<string, seq<Device>>, router: string): seq<Device> {
    if router in members then members[router] else []
  }

  /** The end devices seen so far, filed under their routers. */
  ghost predicate FiledHome(
    best: map<string, Claim>, routers: seq<Device>, coordinators: seq<Device>, ends: seq<Device>,
    members: map<string, seq<Device>>)
  {
    forall k :: MembersOf(members, k) == Filter(HomeIs(best, routers, coordinators, Some(k)), ends)
  }

  lemma FileHome(
    best: map<string, Claim>, routers: seq<Device>, coordinators: seq<Device>, ends: seq<Device>,
    members: map<string, seq<Device>>, d: Device)
    requires FiledHome(best, routers, coordinators, ends, members)
    ensures
      var home := Home(best, routers, coordinators, d);
      FiledHome(best, routers, coordinators, ends + [d],
                if home.Some? then members[home.value := MembersOf(members, home.value) + [d]] else members)
  {
    hide Home, Filter;
    forall k { FilterAppend(HomeIs(best, routers, coordinators, Some(k)), ends, d); }
  }

  /** An end device's router, if it has one: its strongest claim, with coordinators handing over to the first router. */
  method FindHome(best: map<string, Claim>, routers: seq<Device>, coordinators: seq<Device>, device: Device)
    returns (home: Option<string>)
    ensures home == Home(best, routers, coordinators, device)
  {
    var routerIds, coordinatorIds := IdsOf(routers), IdsOf(coordinators);
    var target := if device.id in best then best[device.id].router else "";
    if target != "" && (target in routerIds || target in coordinatorIds) {
      var key := if target in routerIds || routers == [] then target else routers[0].id;
      if key in routerIds { return Some(key); }
    }
    return None;
  }

  /** Router clusters in band order, and the end devices without a router. */
  method BuildClusters(
    rank: string -> int, coordinators: seq<Device>, routers: seq<Device>, ends: seq<Device>, best: map<string, Claim>,
    edges: seq<Edge>)
    returns (clusters: seq<Cluster<Device>>, unassigned: seq<Device>)
    requires BarFree(edges)
    ensures clusters == Map(ClusterOf(SortBy(ByName(rank), ends), best, routers, coordinators),
                            OrderedRouters(rank, routers, edges))
    ensures unassigned == Filter(HomeIs(best, routers, coordinators, None), SortBy(ByName(rank), ends))
  {
    hide SortBy, OrderedRouters, Filter, MembersOf, BarFree, Home;
    var byName := SortBy(ByName(rank), ends);
    var members: map<string, seq<Device>> := map[];
    unassigned := [];
    NothingFiledHome(best, routers, coordinators);
    for i := 0 to |byName|
      invariant FiledHome(best, routers, coordinators, byName[..i], members)
      invariant unassigned == Filter(HomeIs(best, routers, coordinators, None), byName[..i])
    {
      var device := byName[i];
      assert byName[..i + 1] == byName[..i] + [device];
      FileHome(best, routers, coordinators, byName[..i], members, device);
      FilterAppend(HomeIs(best, routers, coordinators, None), byName[..i], device);
      var home := FindHome(best, routers, coordinators, device);
      if home.Some? {
        members := members[home.value := MembersOf(members, home.value) + [device]];
        continue;
      }
      unassigned := unassigned + [device];
    }
    assert byName[..|byName|] == byName;
    var ordered := OrderRouters(rank, routers, edges);
    clusters := [];
    for i := 0 to |ordered|
      invariant clusters == Map(ClusterOf(byName, best, routers, coordinators), ordered[..i])
    {
      clusters := clusters + [Cluster(ordered[i], MembersOf(members, ordered[i].id))];
    }
    assert ordered[..|ordered|] == ordered;
  }

  lemma NothingFiledHome(best: map<string, Claim>, routers: seq<Device>, coordinators: seq<Device>)
    ensures FiledHome(best, routers, coordinators, [], map[])
    ensures Filter(HomeIs(best, routers, coordinators, None), []) == []
  {
  }

  function Reversed<T>(s: seq<T>): seq<T> { seq(|s|, i requires 0 <= i < |s| => s[|s| - 1 - i]) }

  ghost predicate Chunked(rows: seq<seq<nat>>, n: nat, perRow: nat) {
    forall r :: 0 <= r < |rows| ==> r * perRow < n && rows[r] == Forward(n, perRow, r)
  }

  method ChunkRows(n: nat, perRow: nat) returns (rows: seq<seq<nat>>)
    requires perRow > 0
    ensures |rows| == GridRows(n, perRow) && Chunked(rows, n, perRow)
  {
    hide GridRows, Forward;
    rows := [];
    var i := 0;
    NoRows(n, perRow);
    while i < n
      invariant i == |rows| * perRow
      invariant i >= n ==> |rows| == GridRows(n, perRow)
      invariant Chunked(rows, n, perRow)
    {
      NextRow(n, perRow, |rows|);
      rows := rows + [Forward(n, perRow, |rows|)];
      i := i + perRow;
    }
  }

  lemma NoRows(n: nat, perRow: nat)
    requires perRow > 0
    ensures n == 0 ==> GridRows(n, perRow) == 0
  {
  }

  /** Consecutive rows of clusters, every other one turned round. */
  method SplitRows(n: nat, perRow: nat) returns (rows: seq<seq<nat>>)
    requires perRow > 0
    ensures rows == BandRows(n, perRow)
  {
    hide GridRows, TurnedTo, Chunked, Reversed, BandRows;
    rows := ChunkRows(n, perRow);
    NoneTurned(rows, n, perRow);
    var r := 1;
    while r < |rows|
      invariant r % 2 == 1 && |rows| == GridRows(n, perRow)
      invariant TurnedTo(rows, n, perRow, r)
    {
      TurnOne(rows, n, perRow, r);
      rows := rows[r := Reversed(rows[r])];
      r := r + 2;
    }
    AllTurned(rows, n, perRow, r);
  }

  ghost predicate TurnedTo(rows: seq<seq<nat>>, n: nat, perRow: nat, r: nat) {
    forall k :: 0 <= k < |rows| ==>
      k * perRow < n && rows[k] == if k < r then RowIndices(n, perRow, k) else Forward(n, perRow, k)
  }

  lemma NoneTurned(rows: seq<seq<nat>>, n: nat, perRow: nat)
    requires Chunked(rows, n, perRow)
    ensures TurnedTo(rows, n, perRow, 1)
  {
    hide RowIndices, Forward;
  }

  lemma TurnOne(rows: seq<seq<nat>>, n: nat, perRow: nat, r: nat)
    requires TurnedTo(rows, n, perRow, r) && r % 2 == 1 && r < |rows|
    ensures TurnedTo(rows[r := Reversed(rows[r])], n, perRow, r + 2)
  {
    hide RowIndices, Forward, Reversed;
    assert r * perRow < n;
    Turned(n, perRow, r);
  }

  lemma AllTurned(rows: seq<seq<nat>>, n: nat, perRow: nat, r: nat)
    requires perRow > 0 && TurnedTo(rows, n, perRow, r) && |rows| == GridRows(n, perRow) && r >= |rows|
    ensures rows == BandRows(n, perRow)
  {
    hide RowIndices, Forward;
  }

  lemma Turned(n: nat, perRow: nat, r: nat)
    requires r * perRow < n && r % 2 == 1
    ensures Reversed(Forward(n, perRow, r)) == RowIndices(n, perRow, r)
  {
  }

  function Forward(n: nat, perRow: nat, r: nat): (row: seq<nat>)
    requires r * perRow < n
    ensures Indexes(row, n) && (r % 2 == 0 ==> row == RowIndices(n, perRow, r))
  {
    var start := r * perRow;
    seq(Min(start + perRow, n) - start, j requires 0 <= j < Min(start + perRow, n) - start => start + j)
  }

  lemma NextRow(n: nat, perRow: nat, r: nat)
    requires perRow > 0 && r * perRow < n
    ensures (r + 1) * perRow == r * perRow + perRow
    ensures r < GridRows(n, perRow)
    ensures (r + 1) * perRow < n ==> r + 1 < GridRows(n, perRow)
    ensures (r + 1) * perRow >= n ==> r + 1 == GridRows(n, perRow)
  {
    var rows := GridRows(n, perRow);
    assert rows * perRow <= n + perRow - 1 < rows * perRow + perRow;
    MulStep(rows, r + 1, perRow);
    MulStep(r + 1, rows, perRow);
    MulStep(r, rows, perRow);
  }

  /** One graph's table of positions, written by the placers. */
  class Canvas {
    var positions: Positions

    constructor ()
      ensures positions == map[]
    {
      positions := map[];
    }

    /** Places a centred grid and returns the bottom of the block. */
    method PlaceGrid(devices: seq<Device>, centerX: real, topY: real, columns: nat) returns (bottom: real)
      modifies this
      ensures positions == Apply(old(positions), Grid(devices, centerX, topY, columns))
      ensures bottom == GridBottom(|devices|, topY, columns)
    {
      hide InRow;
      ghost var g := Grid(devices, centerX, topY, columns);
      if devices == [] { return topY; }
      var cols := Max(1, columns);
      var rows := GridRows(|devices|, cols);
      for i := 0 to |devices|
        invariant positions == Apply(old(positions), g[..i])
      {
        var row := i / cols;
        var inRow := InRow(|devices|, row, cols);
        var col := i % cols;
        var rowWidth := Wide(inRow);
        assert g[..i + 1] == g[..i] + [g[i]];
        ApplyAppend(old(positions), g[..i], g[i]);
        positions := positions[devices[i].id := Point(centerX - rowWidth / 2.0 + Wide(col), topY + Down(row))];
      }
      assert g[..|devices|] == g;
      return topY + Down(rows);
    }

    /** Places one row of clusters, left to right from a cursor, and returns its bottom. */
    method PlaceRow(shape: BandShape, clusters: seq<Cluster<Device>>, row: seq<nat>, bandTop: real)
      returns (rowBottom: real)
      requires Indexes(row, |clusters|)
      modifies this
      ensures positions == Apply(old(positions), Row(shape, clusters, row, -RowWidth(shape, clusters, row) / 2.0, bandTop))
      ensures rowBottom == RowBottom(shape, clusters, row, bandTop)
    {
      hide Apply, Grid, GridBottom, ClusterWidth;
      var rowWidth := RowWidth(shape, clusters, row);
      var left := -rowWidth / 2.0;
      var cursorX := left;
      rowBottom := bandTop;
      assert positions == Apply(old(positions), []) by { ApplyNothing(positions); }
      for j := 0 to |row|
        invariant cursorX == left + RowWidth(shape, clusters, row[..j])
        invariant rowBottom == RowBottom(shape, clusters, row[..j], bandTop)
        invariant rowBottom >= bandTop
        invariant positions == Apply(old(positions), Row(shape, clusters, row[..j], left, bandTop))
      {
        var c := clusters[row[j]];
        var width := WidthOf(shape, c);
        var columns := shape.columns(|c.members|);
        ghost var before := positions;
        assert row[..j + 1][..j] == row[..j];
        ApplyBoth(old(positions), Row(shape, clusters, row[..j], left, bandTop),
                  Column(c, cursorX + width / 2.0, bandTop, columns));
        var bottom := PlaceColumn(c, cursorX + width / 2.0, bandTop, columns);
        rowBottom := MaxReal(rowBottom, bottom);
        cursorX := cursorX + width;
      }
      assert row[..|row|] == row;
    }

    /** Places a router and, below it, its satellites. */
    method PlaceColumn(c: Cluster<Device>, centerX: real, topY: real, columns: nat) returns (bottom: real)
      modifies this
      ensures positions == Apply(old(positions), Column(c, centerX, topY, columns))
      ensures bottom == ColumnBottom(c, topY, columns)
    {
      hide Grid, GridBottom;
      ghost var router := [Placed(c.router, Point(centerX - NODE_W / 2.0, topY))];
      ApplyBoth(positions, router, Grid(c.members, centerX, topY + CELL_H, columns));
      ApplyOne(positions, router[0]);
      hide Apply;
      positions := positions[c.router.id := Point(centerX - NODE_W / 2.0, topY)];
      bottom := PlaceGrid(c.members, centerX, topY + CELL_H, columns);
    }

    /** Places the router bands and returns where the next band would start. */
    method PlaceBands(shape: BandShape, clusters: seq<Cluster<Device>>, firstTop: real) returns (bandTop: real)
      modifies this
      ensures
        var rows := BandRows(|clusters|, Max(1, shape.perRow));
        && positions == Apply(old(positions), Bands(shape, clusters, rows, firstTop))
        && bandTop == BandTop(shape, clusters, rows, firstTop)
    {
      hide Apply, Row, RowBottom, RowWidth, BandRows;
      var rows := SplitRows(|clusters|, Max(1, shape.perRow));
      bandTop := firstTop;
      assert positions == Apply(old(positions), []) by { ApplyNothing(positions); }
      for r := 0 to |rows|
        invariant positions == Apply(old(positions), Bands(shape, clusters, rows[..r], firstTop))
        invariant bandTop == BandTop(shape, clusters, rows[..r], firstTop)
      {
        assert rows[..r + 1][..r] == rows[..r];
        ApplyBoth(old(positions), Bands(shape, clusters, rows[..r], firstTop),
                  Row(shape, clusters, rows[r], -RowWidth(shape, clusters, rows[r]) / 2.0, bandTop));
        var rowBottom := PlaceRow(shape, clusters, rows[r], bandTop);
        bandTop := rowBottom + BAND_GAP / 2.0;
      }
      assert rows[..|rows|] == rows;
    }
  
    /** The evidence-weighted centre of the routers the coordinators link to. */
    method CoordinatorBarycenterX(coordinators: seq<Device>, clusters: seq<Cluster<Device>>, edges: seq<Edge>)
      returns (x: real)
      ensures x == CoordinatorX(positions, coordinators, clusters, edges)
    {
      hide Weighs, Firsts, Total, Strength, Pulls, Moment, PullTotal, Leftmost, Rightmost;
      if coordinators == [] || clusters == [] { return 0.0; }
      var ids := IdsOf(coordinators) + set c | c in clusters :: c.router.id;
      var weights, order := EvidencePairWeights(ids, edges);
      var coordinatorIds := Firsts(Map(IdOf(), coordinators));
      ghost var pulls := [];
      var weightedX, total := 0.0, 0;
      var range: Option<(real, real)> := None;
      NoPulls(positions, ids, edges, coordinatorIds, clusters[..0]);
      for i := 0 to |clusters|
        invariant pulls == Pulls(positions, ids, edges, coordinatorIds, clusters[..i])
        invariant weightedX == Moment(pulls) && total == PullTotal(pulls)
        invariant range == if pulls == [] then None else Some((Leftmost(pulls), Rightmost(pulls)))
      {
        var id := clusters[i].router.id;
        OnePull(positions, ids, edges, coordinatorIds, clusters, i);
        if id !in positions { continue; }
        var centerX := positions[id].x + NODE_W / 2.0;
        range := if range.None? then Some((centerX, centerX))
                 else Some((MinReal(range.value.0, centerX), MaxReal(range.value.1, centerX)));
        ghost var strength := Total(Strength(ids, edges, id), coordinatorIds);
        weightedX, total := PullTowards(ids, edges, weights, coordinatorIds, id, centerX, weightedX, total);
        PullAppended(pulls, Pull(strength, centerX));
        pulls := pulls + [Pull(strength, centerX)];
      }
      assert clusters[..|clusters|] == clusters;
      if total == 0 || range.None? { return 0.0; }
      return MinReal(range.value.1, MaxReal(range.value.0, weightedX / total as real));
    }

    /** The hierarchy of the smart, backbone, manual and health modes. */
    method PlaceHierarchy(
      rank: string -> int, coordinators: seq<Device>, limited: seq<Device>, clusters: seq<Cluster<Device>>,
      unassigned: seq<Device>, degree: map<string, int>, edges: seq<Edge>, shape: BandShape)
      requires Degrees(degree, edges)
      modifies this
      ensures
        var g := Groups(Prominent(rank, edges, coordinators), clusters, unassigned, Prominent(rank, edges, limited));
        var x := CoordinatorX(Apply(old(positions), RouterBands(shape, g)), coordinators, clusters, edges);
        positions == Apply(old(positions), Hierarchy(shape, g, x))
    {
      hide Apply, Grid, GridBottom, Bands, BandTop, CoordinatorX, Prominent, Degrees, CeilSqrt;
      var bandTop := PlaceBands(shape, clusters, FIRST_BAND);
      var ordered := StableSort(rank, coordinators, degree, edges);
      var coordinatorX := CoordinatorBarycenterX(coordinators, clusters, edges);
      var _ := PlaceGrid(ordered, coordinatorX, 0.0, Max(1, |ordered|));
      var sortedLimited := StableSort(rank, limited, degree, edges);
      ghost var g := Groups(ordered, clusters, unassigned, sortedLimited);
      ghost var cols := GroupCols(|unassigned| + 1);
      ghost var row := Grid(ordered, coordinatorX, 0.0, Max(1, |ordered|));
      PlaceRest(g.coordinators, clusters, unassigned, sortedLimited, bandTop + BAND_GAP, GroupCols(|unassigned| + 1));
      ApplyBoth(old(positions), RouterBands(shape, g), row);
      ApplyBoth(old(positions), RouterBands(shape, g) + row, Rest(g, bandTop + BAND_GAP, cols));
    }

    /** The cluster mode: every router in a cell of its own. */
    method PlaceClusters(
      rank: string -> int, coordinators: seq<Device>, limited: seq<Device>, clusters: seq<Cluster<Device>>,
      unassigned: seq<Device>, degree: map<string, int>, ghost edges: seq<Edge>)
      requires Degrees(degree, edges)
      modifies this
      ensures
        var g := Groups(Prominent(rank, edges, coordinators), clusters, unassigned, Prominent(rank, edges, limited));
        positions == Apply(old(positions), ClusterMode(g))
    {
      hide Apply, Grid, GridBottom, Prominent, Degrees, CeilSqrt, PerRow, GridRows, Column, CenterX, CenterY;
      var n := |clusters|;
      var perRow := PerRow(n);
      var ordered := StableSort(rank, coordinators, degree, edges);
      var _ := PlaceGrid(ordered, 0.0, 0.0, Max(1, |ordered|));
      ghost var row := Grid(ordered, 0.0, 0.0, Max(1, |ordered|));
      ghost var before := positions;
      ApplyNothing(before);
      for index := 0 to n
        invariant positions == Apply(before, Cells(clusters, index))
      {
        ApplyBoth(before, Cells(clusters, index), Cell(n, clusters[index], index));
        var _ := PlaceColumn(clusters[index], CenterX(n, perRow, index), CenterY(perRow, index), 2);
      }
      var bottom := FIRST_BAND + Tall(GridRows(n, perRow)) + BAND_GAP;
      var sortedLimited := StableSort(rank, limited, degree, edges);
      ghost var g := Groups(ordered, clusters, unassigned, sortedLimited);
      PlaceRest(ordered, clusters, unassigned, sortedLimited, bottom, GroupCols(|unassigned|));
      ApplyBoth(old(positions), row, Cells(clusters, n));
      ApplyBoth(old(positions), row + Cells(clusters, n), Rest(g, bottom, GroupCols(|unassigned|)));
    }

    /** The health mode's second step: flagged devices move to a band above everything. */
    method PlaceAttention(rank: string -> int, devices: seq<Device>, degree: map<string, int>, ghost edges: seq<Edge>)
      requires Degrees(degree, edges)
      modifies this
      ensures positions == Apply(old(positions), Attention(Issues(rank, devices, edges)))
    {
      hide Apply, Grid, GridBottom, GridRows, Prominent, HasIssue;
      var sorted := StableSort(rank, Filter(Flagged(), devices), degree, edges);
      var issues := Filter(NotCoordinator(), sorted);
      ApplyNothing(positions);
      if issues == [] { return; }
      var cols := Min(|issues|, 6);
      var rows := GridRows(|issues|, cols);
      var bandTop := -Down(rows) - BAND_GAP;
      var _ := PlaceGrid(issues, 0.0, bandTop, cols);
    }

    /** The safety net: whoever has no position yet gets one. */
    method PlaceStrays(devices: seq<Device>)
      modifies this
      ensures positions == Net(old(positions), devices)
    {
      var fallbackIndex := 0;
      for i := 0 to |devices|
        invariant positions == Net(old(positions), devices[..i])
        invariant fallbackIndex == Stray(old(positions), devices[..i])
      {
        assert devices[..i + 1][..i] == devices[..i];
        if devices[i].id !in positions {
          positions := positions[devices[i].id := NetPoint(fallbackIndex)];
          fallbackIndex := fallbackIndex + 1;
        }
      }
      assert devices[..|devices|] == devices;
    }

    /** The groups without router evidence, if there are any. */
    method PlaceRest(
      ghost coordinators: seq<Device>, ghost clusters: seq<Cluster<Device>>, unassigned: seq<Device>,
      limited: seq<Device>, top: real, cols: nat)
      modifies this
      ensures positions == Apply(old(positions), Rest(Groups(coordinators, clusters, unassigned, limited), top, cols))
    {
      hide Apply, Grid, GridBottom, CeilSqrt;
      ghost var g := Groups(coordinators, clusters, unassigned, limited);
      ghost var limitedCols := GroupCols(|limited|);
      ApplyBoth(positions, Grid(unassigned, 0.0, top, cols), Grid(limited, 0.0, LimitedTop(g, top, cols), limitedCols));
      EmptyGrid(positions, 0.0, top, cols);
      var groupTop := top;
      if |unassigned| > 0 {
        var bottom := PlaceGrid(unassigned, 0.0, groupTop, cols);
        groupTop := bottom + BAND_GAP / 2.0;
      }
      EmptyGrid(positions, 0.0, groupTop, limitedCols);
      if |limited| > 0 {
        var _ := PlaceGrid(limited, 0.0, groupTop, GroupCols(|limited|));
      }
    }
  }

  lemma EmptyGrid(m: Positions, centerX: real, topY: real, cols: nat)
    ensures Apply(m, Grid([], centerX, topY, cols)) == m
  {
  }

  lemma NoPulls(
    at: Positions, ids: set<string>, edges: seq<Edge>, coordinators: seq<string>, clusters: seq<Cluster<Device>>)
    requires clusters == []
    ensures Pulls(at, ids, edges, coordinators, clusters) == [] && Moment([]) == 0.0 && PullTotal([]) == 0
  {
  }

  lemma OnePull(
    at: Positions, ids: set<string>, edges: seq<Edge>, coordinators: seq<string>, clusters: seq<Cluster<Device>>, i: nat)
    requires i < |clusters|
    ensures
      var id := clusters[i].router.id;
      Pulls(at, ids, edges, coordinators, clusters[..i + 1]) ==
      Pulls(at, ids, edges, coordinators, clusters[..i]) +
      if id in at then [Pull(Total(Strength(ids, edges, id), coordinators), at[id].x + NODE_W / 2.0)] else []
  {
    hide Strength, Total;
    assert clusters[..i + 1][..i] == clusters[..i];
  }

  lemma PullAppended(pulls: seq<Pull>, p: Pull)
    ensures Moment(pulls + [p]) == Moment(pulls) + p.weight as real * p.x
    ensures PullTotal(pulls + [p]) == PullTotal(pulls) + p.weight
    ensures Leftmost(pulls + [p]) == if pulls == [] then p.x else MinReal(Leftmost(pulls), p.x)
    ensures Rightmost(pulls + [p]) == if pulls == [] then p.x else MaxReal(Rightmost(pulls), p.x)
  {
    assert (pulls + [p])[..|pulls|] == pulls;
  }

  /** Adds one router's pulls to the running sums. */
  method PullTowards(
    ghost ids: set<string>, ghost edges: seq<Edge>, weights: map<string, int>, coordinatorIds: seq<string>, id: string,
    centerX: real, weightedX0: real, total0: int)
    returns (weightedX: real, total: int)
    requires Weighs(ids, edges, weights)
    ensures
      var strength := Total(Strength(ids, edges, id), coordinatorIds);
      weightedX == weightedX0 + strength as real * centerX && total == total0 + strength
  {
    hide Weighs, PairWeight, PairKey, Strength;
    weightedX, total := weightedX0, total0;
    for j := 0 to |coordinatorIds|
      invariant total == total0 + Total(Strength(ids, edges, id), coordinatorIds[..j])
      invariant weightedX == weightedX0 + Total(Strength(ids, edges, id), coordinatorIds[..j]) as real * centerX
    {
      assert coordinatorIds[..j + 1][..j] == coordinatorIds[..j];
      var key := PairKey(coordinatorIds[j], id);
      WeighsKeys(ids, edges, weights, key);
      var w := if key in weights then weights[key] else 0;
      Distributed(Total(Strength(ids, edges, id), coordinatorIds[..j]), w, centerX);
      StrengthIs(ids, edges, id, coordinatorIds[j]);
      if w > 0 {
        weightedX := weightedX + w as real * centerX;
        total := total + w;
      }
    }
    assert coordinatorIds[..|coordinatorIds|] == coordinatorIds;
  }

  lemma StrengthIs(ids: set<string>, edges: seq<Edge>, id: string, c: string)
    ensures Strength(ids, edges, id)(c) == Max(0, PairWeight(ids, edges, PairKey(c, id)))
  {
  }

  lemma Distributed(a: int, b: int, x: real)
    ensures (a + b) as real * x == a as real * x + b as real * x
  {
  }

  /** Positions for every device under the given mode. */
  method ComputeMeshLayout(rank: string -> int, devices: seq<Device>, edges: seq<Edge>, mode: Mode)
    returns (positions: Positions)
    requires BarFree(edges)
    ensures positions == Layout(rank, devices, edges, mode)
  {
    hide Apply, BarFree, BestSoFar, OrderedRouters, Prominent, Hierarchy, ClusterMode, CoordinatorX, Net, Filter;
    hide Degrees, Attention, Home, SortBy, Assigned;
    var canvas := new Canvas();
    var coordinators, routers, ends, limited := ClassifyDevices(devices);
    var degree := NeighbourDegrees(edges);
    var best := AssignEndDevices(devices, edges);
    AssignedBest(devices, edges);
    AssignmentPermuted(devices, edges, edges, best, Assigned(devices, edges));
    var clusters, unassigned := BuildClusters(rank, coordinators, routers, ends, best, edges);
    ghost var g := GroupsOf(rank, devices, edges);
    assert g == Groups(Prominent(rank, edges, coordinators), clusters, unassigned, Prominent(rank, edges, limited));
    match mode {
      case Clusters =>
        canvas.PlaceClusters(rank, coordinators, limited, clusters, unassigned, degree, edges);
      case Health =>
        canvas.PlaceHierarchy(rank, coordinators, limited, clusters, unassigned, degree, edges, SMART);
        ApplyBoth(map[], HierarchyOf(SMART, coordinators, g, edges), Attention(Issues(rank, devices, edges)));
        canvas.PlaceAttention(rank, devices, degree, edges);
      case Backbone =>
        canvas.PlaceHierarchy(rank, coordinators, limited, clusters, unassigned, degree, edges, BACKBONE);
      case Smart | Manual =>
        canvas.PlaceHierarchy(rank, coordinators, limited, clusters, unassigned, degree, edges, SMART);
    }
    assert canvas.positions == Apply(map[], Placements(rank, devices, edges, mode));
    canvas.PlaceStrays(devices);
    return canvas.positions;
  }

  lemma ApplyNothing(m: Positions)
    ensures Apply(m, []) == m
  {
  }

  lemma ApplyOne(m: Positions, p: Placed<Device>)
    ensures Apply(m, [p]) == m[p.item.id := p.at]
  {
    assert [p][..0] == [];
  }
}