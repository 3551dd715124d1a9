/**
 Where routers, flagged devices and coordinators stand. Routers in rows of six, or ten in
 the backbone, every other row from right to left, so that neighbours in the evidence order
 stay close where a row ends; flagged devices above everything in the health mode; the
 coordinators among the routers they are tied to.
 */
module MeshRows {
  import opened Basics
  import opened Sequences
  import opened MeshTypes
  import opened MeshSeriation
  import opened MeshOrdering
  import opened MeshGeometry
  import opened MeshCoverage
  import opened MeshLayout
  import opened MeshHomes
  import opened MeshUnder

  /* ---------------- along a row and down the rows ---------------- */

  lemma {:induction false} WidthsGrow<T>(shape: BandShape, clusters: seq<Cluster<T>>, row: seq<nat>, i: nat, j: nat)
    requires Indexes(row, |clusters|) && i <= j <= |row|
    ensures RowWidth(shape, clusters, row[..i]) <= RowWidth(shape, clusters, row[..j])
  {
    hide ClusterWidth;
    if i < j {
      WidthsGrow(shape, clusters, row, i, j - 1);
      assert row[..j][..j - 1] == row[..j - 1];
      WidthPositive(shape.columns(|clusters[row[j - 1]].members|));
    }
  }

  lemma CentersGrow<T>(shape: BandShape, clusters: seq<Cluster<T>>, row: seq<nat>, left: real, i: nat, j: nat)
    requires Indexes(row, |clusters|) && i < j < |row|
    ensures RowCenter(shape, clusters, row, left, i) + NODE_W < RowCenter(shape, clusters, row, left, j)
  {
    WidthsGrow(shape, clusters, row, i + 1, j);
    assert row[..i + 1][..i] == row[..i];
    AtLeastNode(shape.columns(|clusters[row[i]].members|));
    AtLeastNode(shape.columns(|clusters[row[j]].members|));
  }

  lemma AtLeastNode(columns: nat)
    ensures ClusterWidth(columns) > NODE_W
  {
  }

  lemma RowDeep<T>(shape: BandShape, clusters: seq<Cluster<T>>, row: seq<nat>, topY: real)
    requires Indexes(row, |clusters|) && row != []
    ensures RowBottom(shape, clusters, row, topY) >= topY + CELL_H
  {
    hide ColumnBottom, RowBottom;
    var c := clusters[row[|row| - 1]];
    ColumnLaidOut(c, 0.0, topY, shape.columns(|c.members|));
    LastDeep(shape, clusters, row, topY);
  }

  lemma LastDeep<T>(shape: BandShape, clusters: seq<Cluster<T>>, row: seq<nat>, topY: real)
    requires Indexes(row, |clusters|) && row != []
    ensures
      var c := clusters[row[|row| - 1]];
      RowBottom(shape, clusters, row, topY) >= ColumnBottom(c, topY, shape.columns(|c.members|))
  {
    hide ColumnBottom;
  }

  lemma {:induction false} TopsGrow<T>(
    shape: BandShape, clusters: seq<Cluster<T>>, rows: seq<seq<nat>>, topY: real, r: nat, s: nat)
    requires AllIndexes(rows, |clusters|) && r < s <= |rows| && forall i :: 0 <= i < |rows| ==> rows[i] != []
    ensures BandTop(shape, clusters, rows[..r], topY) + CELL_H <= BandTop(shape, clusters, rows[..s], topY)
  {
    hide RowBottom;
    assert rows[..s][..s - 1] == rows[..s - 1];
    RowDeep(shape, clusters, rows[s - 1], BandTop(shape, clusters, rows[..s - 1], topY));
    if r < s - 1 { TopsGrow(shape, clusters, rows, topY, r, s - 1); }
  }

  lemma RowsFilled(n: nat, perRow: nat)
    requires perRow > 0
    ensures forall r :: 0 <= r < |BandRows(n, perRow)| ==> BandRows(n, perRow)[r] != []
  {
    RowStarts(n, perRow);
  }

  /* ---------------- the routers in the picture ---------------- */

  lemma RouterPoint(rank: string -> int, devices: seq<Device>, edges: seq<Edge>, mode: Mode, k: nat)
    returns (centerX: real, top: real)
    requires UniqueIds(devices) && k < |GroupsOf(rank, devices, edges).clusters| && mode != Clusters
    requires mode == Health ==> !HasIssue(GroupsOf(rank, devices, edges).clusters[k].router)
    ensures RowPlace(ShapeOf(mode), GroupsOf(rank, devices, edges).clusters, k, centerX, top)
    ensures
      var m, id := Layout(rank, devices, edges, mode), GroupsOf(rank, devices, edges).clusters[k].router.id;
      id in m && m[id] == Point(centerX - NODE_W / 2.0, top)
  {
    hide Placements, UniqueIds, Layout, GroupsOf, HasIssue, Grid, RowPlace;
    var c := GroupsOf(rank, devices, edges).clusters[k];
    centerX, top := ColumnInLayout(rank, devices, edges, mode, k);
    var head := Placed(c.router, Point(centerX - NODE_W / 2.0, top));
    assert head in Column(c, centerX, top, MemberColumns(mode, |c.members|));
    PlacedInLayout(rank, devices, edges, mode, head);
  }

  /** Where position `i` of a row is found in it: rows that run back are turned round. */
  function Turned(back: bool, n: nat, i: nat): nat
    requires i < n
  {
    if back then n - 1 - i else i
  }

  lemma AlongRow<T>(shape: BandShape, clusters: seq<Cluster<T>>, row: seq<nat>, left: real, back: bool, a: nat, b: nat)
    requires Indexes(row, |clusters|) && a < b < |row|
    ensures
      var x, x' := RowCenter(shape, clusters, row, left, Turned(back, |row|, a)), RowCenter(shape, clusters, row, left, Turned(back, |row|, b));
      if back then x' + NODE_W < x else x + NODE_W < x'
  {
    hide RowCenter;
    if back { CentersGrow(shape, clusters, row, left, |row| - 1 - b, |row| - 1 - a); }
    else { CentersGrow(shape, clusters, row, left, a, b); }
  }

  /** What a place in the bands comes down to. */
  lemma PlaceIn<T>(shape: BandShape, clusters: seq<Cluster<T>>, k: nat, x: real, y: real, r: nat, i: nat)
    requires shape.perRow > 0 && RowPlace(shape, clusters, k, x, y) && r == k / shape.perRow && i == k % shape.perRow
    ensures
      var rows := BandRows(|clusters|, shape.perRow);
      && r < |rows| && i < |rows[r]| && y == BandTop(shape, clusters, rows[..r], FIRST_BAND)
      && x == RowCenter(shape, clusters, rows[r], -RowWidth(shape, clusters, rows[r]) / 2.0, Turned(r % 2 == 1, |rows[r]|, i))
  {
    hide BandRows, RowCenter, BandTop, RowWidth;
  }

  lemma PlacesOrdered<T>(
    shape: BandShape, clusters: seq<Cluster<T>>, k: nat, x: real, y: real, k': nat, x': real, y': real)
    requires k < k' && shape.perRow > 0 && RowPlace(shape, clusters, k, x, y) && RowPlace(shape, clusters, k', x', y')
    ensures
      if k / shape.perRow == k' / shape.perRow
      then y == y' && if k / shape.perRow % 2 == 0 then x + NODE_W < x' else x' + NODE_W < x
      else y + CELL_H <= y'
  {
    hide BandRows, RowCenter, BandTop, RowWidth, RowPlace;
    var rows := BandRows(|clusters|, shape.perRow);
    var r, s, i, i' := k / shape.perRow, k' / shape.perRow, k % shape.perRow, k' % shape.perRow;
    CellOrder(k, k', shape.perRow);
    PlaceIn(shape, clusters, k, x, y, r, i);
    PlaceIn(shape, clusters, k', x', y', s, i');
    if r == s {
      AlongRow(shape, clusters, rows[r], -RowWidth(shape, clusters, rows[r]) / 2.0, r % 2 == 1, i, i');
    } else {
      RowsFilled(|clusters|, shape.perRow);
      TopsGrow(shape, clusters, rows, FIRST_BAND, r, s);
    }
  }

  /** `q` stands further along its row than `p`, or in a lower row. */
  predicate Follows(p: Point, q: Point, k: nat, k': nat, perRow: nat)
    requires perRow > 0
  {
    if k / perRow != k' / perRow then p.y + CELL_H <= q.y
    else p.y == q.y && if k / perRow % 2 == 0 then p.x + NODE_W < q.x else q.x + NODE_W < p.x
  }

  /**
   The routers of a hierarchy stand in evidence order: six to a row, ten in the backbone, from left to right in
   every other row and from right to left in the rows between, each row below the one before.
   */
  lemma RoutersInRows(rank: string -> int, devices: seq<Device>, edges: seq<Edge>, mode: Mode, k: nat, k': nat)
    requires UniqueIds(devices) && k < k' < |GroupsOf(rank, devices, edges).clusters| && mode != Clusters
    requires
      var c := GroupsOf(rank, devices, edges).clusters;
      mode == Health ==> !HasIssue(c[k].router) && !HasIssue(c[k'].router)
    ensures
      var m, c := Layout(rank, devices, edges, mode), GroupsOf(rank, devices, edges).clusters;
      && c[k].router.id in m && c[k'].router.id in m
      && Follows(m[c[k].router.id], m[c[k'].router.id], k, k', if mode == Backbone then 10 else 6)
  {
    hide UniqueIds, Layout, GroupsOf, HasIssue, RowPlace;
    var x, y := RouterPoint(rank, devices, edges, mode, k);
    var x', y' := RouterPoint(rank, devices, edges, mode, k');
    PlacesOrdered(ShapeOf(mode), GroupsOf(rank, devices, edges).clusters, k, x, y, k', x', y');
  }

  /* ---------------- the attention band ---------------- */

  /** A device placed again ends up where it was placed last; the others stay. */
  lemma {:induction false} ApplyOver(m: Positions, l: seq<Placed<Device>>, id: string)
    ensures
      if exists i :: 0 <= i < |l| && l[i].item.id == id
      then id in Apply(m, l) && exists i :: 0 <= i < |l| && l[i].item.id == id && l[i].at == Apply(m, l)[id]
      else id in Apply(m, l) <==> id in m
    ensures (forall i :: 0 <= i < |l| ==> l[i].item.id != id) && id in m ==> Apply(m, l)[id] == m[id]
  {
    if l != [] {
      var init, last := l[..|l| - 1], l[|l| - 1];
      ApplyOver(m, init, id);
      assert l[|l| - 1] == last;
      forall i | 0 <= i < |init| ensures init[i] == l[i] {}
      if last.item.id != id && (exists i :: 0 <= i < |init| && init[i].item.id == id) {
        var i :| 0 <= i < |init| && init[i].item.id == id && init[i].at == Apply(m, init)[id];
        assert l[i] == init[i];
      }
    }
  }

  lemma AttentionAbove(issues: seq<Device>)
    ensures forall p :: p in Attention(issues) ==> p.at.y < 0.0
    ensures forall d :: d in issues <==> Shows(Attention(issues), d)
  {
    hide Grid, AttentionTop;
    if issues != [] {
      var n := |issues|;
      GridLaidOut(issues, 0.0, AttentionTop(n), AttentionCols(n));
      AboveAll(n);
    }
    forall d ensures d in issues <==> Shows(Attention(issues), d) {
      if issues == [] { ShowsNothing(d); }
      else { ShowsGrid(issues, 0.0, AttentionTop(|issues|), AttentionCols(|issues|), d); }
    }
  }

  lemma AboveAll(n: nat)
    requires n > 0
    ensures GridBottom(n, AttentionTop(n), AttentionCols(n)) <= -BAND_GAP
  {
  }

  lemma IssuesAre(rank: string -> int, devices: seq<Device>, edges: seq<Edge>, d: Device)
    ensures d in Issues(rank, devices, edges) <==> d in devices && HasIssue(d) && d.role != Coordinator
  {
    hide HasIssue, SortBy, NeighbourDegree;
    FilterMembers(Flagged(), devices);
    FilterMembers(NotCoordinator(), Prominent(rank, edges, Filter(Flagged(), devices)));
  }

  /** The health mode draws above everything else exactly the devices with an issue, coordinators aside. */
  lemma AttentionExactly(rank: string -> int, devices: seq<Device>, edges: seq<Edge>, d: Device)
    requires UniqueIds(devices) && d in devices
    ensures
      var m := Layout(rank, devices, edges, Health);
      d.id in m && (m[d.id].y < 0.0 <==> HasIssue(d) && d.role != Coordinator)
  {
    hide Apply, UniqueIds, GroupsOf, CoordinatorX, HasIssue, Issues, Attention, Hierarchy, Shows;
    var g, coordinators := GroupsOf(rank, devices, edges), Filter(HasRole(Coordinator), devices);
    var issues := Issues(rank, devices, edges);
    var x := CoordinatorX(Apply(map[], RouterBands(SMART, g)), coordinators, g.clusters, edges);
    var drawn, band := Hierarchy(SMART, g, x), Attention(issues);
    EveryDevicePlaced(rank, devices, edges, Health);
    ApplyBoth(map[], drawn, band);
    ApplyOver(Apply(map[], drawn), band, d.id);
    HierarchyApart(SMART, g, x);
    AttentionAbove(issues);
    IssuesAre(rank, devices, edges, d);
    GroupsHold(rank, devices, edges, d);
    ShowsHierarchy(SMART, g, x, d);
    InBand(rank, devices, edges, d);
    ApplyMeaning(drawn, d.id);
    ShownAt(drawn, d);
    if d in issues {
      ShownAt(band, d);
      var i :| 0 <= i < |band| && band[i].item.id == d.id && band[i].at == Apply(Apply(map[], drawn), band)[d.id];
      assert band[i] in band;
    } else {
      var i :| 0 <= i < |drawn| && drawn[i].item.id == d.id && drawn[i].at == Apply(map[], drawn)[d.id];
      assert drawn[i] in drawn;
    }
  }

  lemma ShownAt(l: seq<Placed<Device>>, d: Device)
    requires Shows(l, d)
    ensures exists i :: 0 <= i < |l| && l[i].item.id == d.id
  {
    var p :| p in l && p.item == d;
    var i :| 0 <= i < |l| && l[i] == p;
    assert l[i].item.id == d.id;
  }

  /** Nothing in the band has the id of a device without an issue. */
  lemma InBand(rank: string -> int, devices: seq<Device>, edges: seq<Edge>, d: Device)
    requires UniqueIds(devices) && d in devices
    ensures
      var band := Attention(Issues(rank, devices, edges));
      d !in Issues(rank, devices, edges) ==> forall i :: 0 <= i < |band| ==> band[i].item.id != d.id
  {
    hide UniqueIds, HasIssue, Issues, Attention;
    var issues := Issues(rank, devices, edges);
    var band := Attention(issues);
    AttentionAbove(issues);
    forall i | 0 <= i < |band| && band[i].item.id == d.id ensures d in issues {
      assert band[i] in band;
      assert Shows(band, band[i].item);
      IssuesAre(rank, devices, edges, band[i].item);
      SameDevice(devices, band[i].item, d);
    }
  }

  /* ---------------- above the routers ---------------- */

  /** Every pull is towards the middle of a router that has a place. */
  lemma {:induction false} PullsAre(
    at: Positions, ids: set<string>, edges: seq<Edge>, coordinators: seq<string>, clusters: seq<Cluster<Device>>, p: Pull)
    requires p in Pulls(at, ids, edges, coordinators, clusters)
    ensures exists c :: c in clusters && c.router.id in at && p.x == at[c.router.id].x + 95.0
  {
    hide Strength;
    var init, last := clusters[..|clusters| - 1], clusters[|clusters| - 1];
    if p in Pulls(at, ids, edges, coordinators, init) {
      PullsAre(at, ids, edges, coordinators, init, p);
      var c :| c in init && c.router.id in at && p.x == at[c.router.id].x + 95.0;
      assert c in clusters;
    } else {
      assert last in clusters;
    }
  }

  lemma {:induction false} OutermostArePulls(p: seq<Pull>)
    requires p != []
    ensures exists q, r :: q in p && r in p && q.x == Leftmost(p) && r.x == Rightmost(p)
  {
    var init, last := p[..|p| - 1], p[|p| - 1];
    if |p| == 1 {
      assert p[0] in p;
    } else {
      OutermostArePulls(init);
      var q, r :| q in init && r in init && q.x == Leftmost(init) && r.x == Rightmost(init);
      assert q in p && r in p && last in p;
      var q' := if Leftmost(p) == q.x then q else last;
      var r' := if Rightmost(p) == r.x then r else last;
      assert q' in p && r' in p && q'.x == Leftmost(p) && r'.x == Rightmost(p);
    }
  }

  lemma {:induction false} OneCentre(p: seq<Pull>, x: real)
    requires forall q :: q in p ==> q.weight == 0 || q.x == x
    ensures Moment(p) == PullTotal(p) as real * x
  {
    if p != [] {
      var init, last := p[..|p| - 1], p[|p| - 1];
      assert last in p;
      OneCentre(init, x);
      assert PullTotal(p) as real * x == PullTotal(init) as real * x + last.weight as real * x;
    }
  }

  /** All pulls that weigh anything are to one place. */
  ghost predicate OneTie(p: seq<Pull>, x: real) { forall q :: q in p ==> q.weight == 0 || q.x == x }

  lemma CentredOn(p: seq<Pull>, x: real)
    requires OneTie(p, x) && PullTotal(p) != 0
    ensures Moment(p) / PullTotal(p) as real == x
  {
    hide Moment, PullTotal;
    OneCentre(p, x);
    Divided(PullTotal(p) as real, x, Moment(p));
  }

  lemma Divided(w: real, x: real, m: real)
    requires w != 0.0 && m == w * x
    ensures m / w == x
  {
  }

  /** How the coordinators are tied to the routers that have a place. */
  function Ties(at: Positions, coordinators: seq<Device>, clusters: seq<Cluster<Device>>, edges: seq<Edge>): seq<Pull> {
    var routers := set c | c in clusters :: c.router.id;
    Pulls(at, IdsOf(coordinators) + routers, edges, Firsts(Map(IdOf(), coordinators)), clusters)
  }

  lemma CentredBy(at: Positions, coordinators: seq<Device>, clusters: seq<Cluster<Device>>, edges: seq<Edge>)
    requires coordinators != [] && clusters != []
    ensures CoordinatorX(at, coordinators, clusters, edges) == Barycenter(Ties(at, coordinators, clusters, edges))
  {
    hide Pulls, Barycenter;
  }

  /**
   The coordinators' row is centred between the middles of two routers, on the one router they are tied to if
   there is only one, and at 0 without evidence.
   */
  lemma CoordinatorsAmongRouters(at: Positions, coordinators: seq<Device>, clusters: seq<Cluster<Device>>, edges: seq<Edge>)
    requires coordinators != [] && clusters != []
    ensures
      var x, ties := CoordinatorX(at, coordinators, clusters, edges), Ties(at, coordinators, clusters, edges);
      && (PullTotal(ties) == 0 ==> x == 0.0)
      && (PullTotal(ties) != 0 ==>
            && (exists c, d :: c in clusters && d in clusters && c.router.id in at && d.router.id in at &&
                               at[c.router.id].x + 95.0 <= x <= at[d.router.id].x + 95.0)
            && forall q :: q in ties && OneTie(ties, q.x) ==> x == q.x)
  {
    hide Pulls, Leftmost, Rightmost, Moment, PullTotal, CoordinatorX, Strength;
    var ties := Ties(at, coordinators, clusters, edges);
    CentredBy(at, coordinators, clusters, edges);
    TiesPositive(at, coordinators, clusters, edges);
    if PullTotal(ties) != 0 {
      NoTies(ties);
      ClampNeverBites(ties);
      OutermostArePulls(ties);
      var l, r :| l in ties && r in ties && l.x == Leftmost(ties) && r.x == Rightmost(ties);
      var routers := set c | c in clusters :: c.router.id;
      PullsAre(at, IdsOf(coordinators) + routers, edges, Firsts(Map(IdOf(), coordinators)), clusters, l);
      PullsAre(at, IdsOf(coordinators) + routers, edges, Firsts(Map(IdOf(), coordinators)), clusters, r);
      forall q | q in ties && OneTie(ties, q.x) ensures Moment(ties) / PullTotal(ties) as real == q.x { CentredOn(ties, q.x); }
    } else {
      NothingPulls(ties);
    }
  }

  lemma NothingPulls(p: seq<Pull>)
    requires PullTotal(p) == 0
    ensures Barycenter(p) == 0.0
  {
  }

  lemma NoTies(p: seq<Pull>)
    requires PullTotal(p) != 0
    ensures p != []
  {
  }

  lemma TiesPositive(at: Positions, coordinators: seq<Device>, clusters: seq<Cluster<Device>>, edges: seq<Edge>)
    ensures forall q :: q in Ties(at, coordinators, clusters, edges) ==> q.weight >= 0
  {
    hide Pulls;
  }
}
