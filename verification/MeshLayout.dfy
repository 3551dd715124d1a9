/**
 The whole layout: devices sorted into groups by evidence, drawn in one of the
 five modes. No two boxes overlap, every device is placed, and the order of the
 edges does not matter.
 */
module MeshLayout {
  import opened Basics
  import opened Sequences
  import opened MeshTypes
  import opened MeshSeriation
  import opened MeshOrdering
  import opened MeshGeometry
  import opened MeshClusterMode
  import opened MeshCoverage

  datatype Mode = Smart | Backbone | Clusters | Health | Manual

  type Positions = map<string, Point>

  /** Writing the placements one after the other; the last one of a device stays. */
  function Apply(m: Positions, l: seq<Placed<Device>>): Positions {
    if l == [] then m
    else Apply(m, l[..|l| - 1])[l[|l| - 1].item.id := l[|l| - 1].at]
  }

  lemma ApplyAppend(m: Positions, l: seq<Placed<Device>>, p: Placed<Device>)
    ensures Apply(m, l + [p]) == Apply(m, l)[p.item.id := p.at]
  {
    assert (l + [p])[..|l|] == l;
  }

  lemma {:induction false} ApplyBoth(m: Positions, a: seq<Placed<Device>>, b: seq<Placed<Device>>)
    ensures Apply(m, a + b) == Apply(Apply(m, a), b)
  {
    if b == [] {
      assert a + b == a;
    } else {
      ApplyBoth(m, a, b[..|b| - 1]);
      assert a + b == (a + b[..|b| - 1]) + [b[|b| - 1]];
      ApplyAppend(m, a + b[..|b| - 1], b[|b| - 1]);
    }
  }

  /** A written position is that of one of the placements of its device. */
  lemma {:induction false} ApplyMeaning(l: seq<Placed<Device>>, id: string)
    ensures id in Apply(map[], l) <==> exists i :: 0 <= i < |l| && l[i].item.id == id
    ensures id in Apply(map[], l) ==>
              exists i :: 0 <= i < |l| && l[i].item.id == id && l[i].at == Apply(map[], l)[id]
  {
    if l != [] {
      var init, last := l[..|l| - 1], l[|l| - 1];
      ApplyMeaning(init, id);
      assert l[|l| - 1] == last;
      forall i | 0 <= i < |init| ensures init[i] == l[i] {}
      if id in Apply(map[], init) && last.item.id != id {
        var i :| 0 <= i < |init| && init[i].item.id == id && init[i].at == Apply(map[], init)[id];
        assert l[i] == init[i];
      }
    }
  }

  /** No two devices' boxes share a point. */
  ghost predicate NoOverlap(m: Positions) {
    forall a, b :: a in m && b in m && a != b ==> Apart(m[a], m[b])
  }

  lemma ApplyApart(l: seq<Placed<Device>>)
    requires AllApart(l)
    ensures NoOverlap(Apply(map[], l))
  {
    hide Apply;
    var m := Apply(map[], l);
    forall a, b | a in m && b in m && a != b ensures Apart(m[a], m[b]) {
      ApplyMeaning(l, a);
      ApplyMeaning(l, b);
      var i :| 0 <= i < |l| && l[i].item.id == a && l[i].at == m[a];
      var j :| 0 <= j < |l| && l[j].item.id == b && l[j].at == m[b];
      if i < j { assert Apart(l[i].at, l[j].at); } else { assert Apart(l[j].at, l[i].at); }
    }
  }

  /* ---------------- groups ---------------- */

  function HasRole(role: Role): Device -> bool { (d: Device) => d.role == role }

  function EndsAt(v: string): Edge -> int {
    (e: Edge) =>
      if e.evidence.LatestNeighbor? then (if e.source == v then 1 else 0) + (if e.target == v then 1 else 0) else 0
  }

  /** In how many latest neighbour edges a device is an end. */
  function NeighbourDegree(edges: seq<Edge>, v: string): int { Total(EndsAt(v), edges) }

  function ByProminence(rank: string -> int, edges: seq<Edge>): (Device, Device) -> bool {
    (a: Device, b: Device) =>
      var da, db := NeighbourDegree(edges, a.id), NeighbourDegree(edges, b.id);
      da > db || (da == db && ByName(rank)(a, b))
  }

  function Prominent(rank: string -> int, edges: seq<Edge>, devices: seq<Device>): seq<Device> {
    SortBy(ByProminence(rank, edges), devices)
  }

  /** What one edge does to the table of best claims. */
  function Weigh(devices: seq<Device>, best: map<string, Claim>, e: Edge): map<string, Claim> {
    if e.evidence.LatestNeighbor?
    then OfferEnd(devices, OfferEnd(devices, best, e, e.source, e.target), e, e.target, e.source)
    else best
  }

  function Assigned(devices: seq<Device>, edges: seq<Edge>): map<string, Claim> {
    if edges == [] then map[] else Weigh(devices, Assigned(devices, edges[..|edges| - 1]), edges[|edges| - 1])
  }

  lemma {:induction false} AssignedBest(devices: seq<Device>, edges: seq<Edge>)
    ensures BestSoFar(devices, edges, Assigned(devices, edges))
  {
    hide BestSoFar, OfferEnd;
    if edges == [] {
      NothingClaimed(devices);
    } else {
      var init, last := edges[..|edges| - 1], edges[|edges| - 1];
      assert edges == init + [last];
      AssignedBest(devices, init);
      if last.evidence.LatestNeighbor? {
        BothEnds(devices, init, last, Assigned(devices, init));
      } else {
        OtherEvidence(devices, init, last, Assigned(devices, init));
      }
    }
  }

  function IdsOf(devices: seq<Device>): set<string> { set d | d in devices :: d.id }

  /** The router an end device is drawn under: its own, or the first router when its evidence is a coordinator. */
  function Home(best: map<string, Claim>, routers: seq<Device>, coordinators: seq<Device>, d: Device): Option<string> {
    if d.id !in best || best[d.id].router == "" then None
    else
      var target := best[d.id].router;
      if target !in IdsOf(routers) && target !in IdsOf(coordinators) then None
      else
        var key := if target in IdsOf(routers) || routers == [] then target else routers[0].id;
        if key in IdsOf(routers) then Some(key) else None
  }

  function HomeIs(best: map<string, Claim>, routers: seq<Device>, coordinators: seq<Device>, home: Option<string>)
    : Device -> bool
  {
    (d: Device) => Home(best, routers, coordinators, d) == home
  }

  function ClusterOf(ends: seq<Device>, best: map<string, Claim>, routers: seq<Device>, coordinators: seq<Device>)
    : Device -> Cluster<Device>
  {
    (r: Device) => Cluster(r, Filter(HomeIs(best, routers, coordinators, Some(r.id)), ends))
  }

  /** The devices as the placers take them. */
  function GroupsOf(rank: string -> int, devices: seq<Device>, edges: seq<Edge>): Groups<Device> {
    var coordinators, routers := Filter(HasRole(Coordinator), devices), Filter(HasRole(Router), devices);
    var ends := SortBy(ByName(rank), Filter(HasRole(EndDevice), devices));
    var best := Assigned(devices, edges);
    Groups(Prominent(rank, edges, coordinators),
           Map(ClusterOf(ends, best, routers, coordinators), OrderedRouters(rank, routers, edges)),
           Filter(HomeIs(best, routers, coordinators, None), ends),
           Prominent(rank, edges, Filter(HasRole(UnknownRole), devices)))
  }

  /* ---------------- the coordinator's place ---------------- */

  /** How strongly the coordinators are tied to a router standing at `x`. */
  datatype Pull = Pull(weight: int, x: real)

  function Strength(ids: set<string>, edges: seq<Edge>, router: string): string -> int {
    (c: string) => Max(0, PairWeight(ids, edges, PairKey(c, router)))
  }

  function Pulls(at: Positions, ids: set<string>, edges: seq<Edge>, coordinators: seq<string>, clusters: seq<Cluster<Device>>)
    : (r: seq<Pull>)
    ensures forall p :: p in r ==> p.weight >= 0
  {
    if clusters == [] then []
    else
      var before, id := Pulls(at, ids, edges, coordinators, clusters[..|clusters| - 1]), clusters[|clusters| - 1].router.id;
      if id !in at then before
      else
        TotalNonNegative(ids, edges, id, coordinators);
        before + [Pull(Total(Strength(ids, edges, id), coordinators), at[id].x + NODE_W / 2.0)]
  }

  lemma {:induction false} TotalNonNegative(ids: set<string>, edges: seq<Edge>, router: string, coordinators: seq<string>)
    ensures Total(Strength(ids, edges, router), coordinators) >= 0
  {
    hide PairWeight, PairKey;
    if coordinators != [] { TotalNonNegative(ids, edges, router, coordinators[..|coordinators| - 1]); }
  }

  function PullTotal(p: seq<Pull>): int { if p == [] then 0 else PullTotal(p[..|p| - 1]) + p[|p| - 1].weight }

  function Moment(p: seq<Pull>): real {
    if p == [] then 0.0 else Moment(p[..|p| - 1]) + p[|p| - 1].weight as real * p[|p| - 1].x
  }

  function Leftmost(p: seq<Pull>): real
    requires p != []
  {
    if |p| == 1 then p[0].x else MinReal(Leftmost(p[..|p| - 1]), p[|p| - 1].x)
  }

  function Rightmost(p: seq<Pull>): real
    requires p != []
  {
    if |p| == 1 then p[0].x else MaxReal(Rightmost(p[..|p| - 1]), p[|p| - 1].x)
  }

  /** The evidence-weighted mean, held between the outermost routers; 0 without evidence. */
  function Barycenter(p: seq<Pull>): real {
    if p == [] || PullTotal(p) == 0 then 0.0
    else MinReal(Rightmost(p), MaxReal(Leftmost(p), Moment(p) / PullTotal(p) as real))
  }

  lemma {:induction false} MeanBounds(p: seq<Pull>)
    requires p != [] && forall q :: q in p ==> q.weight >= 0
    ensures PullTotal(p) >= 0
    ensures Leftmost(p) <= Rightmost(p)
    ensures PullTotal(p) as real * Leftmost(p) <= Moment(p) <= PullTotal(p) as real * Rightmost(p)
  {
    hide MinReal, MaxReal;
    var init, last := p[..|p| - 1], p[|p| - 1];
    assert last in p;
    Outer(last.x, last.x);
    if |p| > 1 {
      forall q | q in init ensures q in p {}
      MeanBounds(init);
      Outer(Leftmost(init), last.x);
      Outer(Rightmost(init), last.x);
      MeanStep(PullTotal(init), Leftmost(init), Rightmost(init), Moment(init), last);
    } else {
      assert PullTotal(init) == 0 && Moment(init) == 0.0;
    }
  }

  lemma Outer(a: real, b: real)
    ensures MinReal(a, b) <= a <= MaxReal(a, b) && MinReal(a, b) <= b <= MaxReal(a, b)
  {
  }

  lemma MeanStep(w: int, left: real, right: real, moment: real, last: Pull)
    requires w >= 0 && last.weight >= 0
    requires w as real * left <= moment <= w as real * right
    ensures (w + last.weight) as real * MinReal(left, last.x) <= moment + last.weight as real * last.x
    ensures moment + last.weight as real * last.x <= (w + last.weight) as real * MaxReal(right, last.x)
  {
    var a, b := w as real, last.weight as real;
    assert (w + last.weight) as real == a + b;
    var lo, hi := MinReal(left, last.x), MaxReal(right, last.x);
    Scaled(a, lo, left);
    Scaled(b, lo, last.x);
    Scaled(a, right, hi);
    Scaled(b, last.x, hi);
    assert (a + b) * lo == a * lo + b * lo;
    assert (a + b) * hi == a * hi + b * hi;
  }

  lemma Scaled(a: real, x: real, y: real)
    requires a >= 0.0 && x <= y
    ensures a * x <= a * y
  {
  }

  /** The clamp never bites: the weighted mean is between the outermost routers by itself. */
  lemma ClampNeverBites(p: seq<Pull>)
    requires (forall q :: q in p ==> q.weight >= 0) && p != [] && PullTotal(p) != 0
    ensures Barycenter(p) == Moment(p) / PullTotal(p) as real
    ensures Leftmost(p) <= Barycenter(p) <= Rightmost(p)
  {
    hide Moment, PullTotal, Leftmost, Rightmost;
    MeanBounds(p);
    Quotient(PullTotal(p) as real, Leftmost(p), Moment(p), Rightmost(p));
  }

  lemma Quotient(w: real, left: real, moment: real, right: real)
    requires w > 0.0 && w * left <= moment <= w * right
    ensures left <= moment / w <= right
  {
    var q := moment / w;
    assert q * w == moment;
    Cancel(w, left, q);
    Cancel(w, q, right);
  }

  lemma Cancel(w: real, a: real, b: real)
    requires w > 0.0 && w * a <= w * b
    ensures a <= b
  {
    assert w * (b - a) >= 0.0;
  }

  /** Where the coordinator row is centred, given where the routers stand. */
  function CoordinatorX(at: Positions, coordinators: seq<Device>, clusters: seq<Cluster<Device>>, edges: seq<Edge>): real {
    if coordinators == [] || clusters == [] then 0.0
    else
      var routers := set c | c in clusters :: c.router.id;
      Barycenter(Pulls(at, IdsOf(coordinators) + routers, edges, Firsts(Map(IdOf(), coordinators)), clusters))
  }

  /* ---------------- the five modes ---------------- */

  predicate HasIssue(d: Device) {
    || d.openIssue || d.health.NeedsAttention? || d.health.Unavailable?
    || exists f :: f in d.flags && IssueFlag(f)
  }

  predicate IssueFlag(f: Flag) {
    f.FlagUnavailable? || f.FlagNeedsAttention? || f.FlagInterviewFailure? || f.FlagWeakLink? || f.FlagRouterRisk?
  }

  function Flagged(): Device -> bool { (d: Device) => HasIssue(d) }
  function NotCoordinator(): Device -> bool { (d: Device) => d.role != Coordinator }

  function Issues(rank: string -> int, devices: seq<Device>, edges: seq<Edge>): seq<Device> {
    Filter(NotCoordinator(), Prominent(rank, edges, Filter(Flagged(), devices)))
  }

  function ClusterColumns(members: nat): nat { if members <= 2 then 1 else 2 }
  function OneColumn(members: nat): nat { 1 }

  const SMART := BandShape(ClusterColumns, 6)
  const BACKBONE := BandShape(OneColumn, 10)

  function HierarchyOf(
    shape: BandShape, coordinators: seq<Device>, g: Groups<Device>, edges: seq<Edge>): seq<Placed<Device>>
  {
    Hierarchy(shape, g, CoordinatorX(Apply(map[], RouterBands(shape, g)), coordinators, g.clusters, edges))
  }

  /** Every write of a layout, in order, before the safety net. */
  function Placements(rank: string -> int, devices: seq<Device>, edges: seq<Edge>, mode: Mode): seq<Placed<Device>> {
    var g, coordinators := GroupsOf(rank, devices, edges), Filter(HasRole(Coordinator), devices);
    match mode
    case Clusters => ClusterMode(g)
    case Health => HierarchyOf(SMART, coordinators, g, edges) + Attention(Issues(rank, devices, edges))
    case Backbone => HierarchyOf(BACKBONE, coordinators, g, edges)
    case Smart => HierarchyOf(SMART, coordinators, g, edges)
    case Manual => HierarchyOf(SMART, coordinators, g, edges)
  }

  /** The safety net: devices nobody placed, in rows of eight above the rest. */
  function Stray(m: Positions, devices: seq<Device>): nat {
    if devices == [] then 0
    else
      var init, last := devices[..|devices| - 1], devices[|devices| - 1];
      Stray(m, init) + if last.id in Net(m, init) then 0 else 1
  }

  function Net(m: Positions, devices: seq<Device>): Positions {
    if devices == [] then m
    else
      var init, last := devices[..|devices| - 1], devices[|devices| - 1];
      var before, k := Net(m, init), Stray(m, init);
      if last.id in before then before else before[last.id := NetPoint(k)]
  }

  function NetPoint(k: nat): Point { Point(Wide(k % 8), Down(-2) - Down(k / 8)) }

  function Layout(rank: string -> int, devices: seq<Device>, edges: seq<Edge>, mode: Mode): Positions {
    Net(Apply(map[], Placements(rank, devices, edges, mode)), devices)
  }

  /* ---------------- every device is placed ---------------- */

  lemma {:induction false} NetIdle(m: Positions, devices: seq<Device>)
    requires forall d :: d in devices ==> d.id in m
    ensures Net(m, devices) == m && Stray(m, devices) == 0
  {
    if devices != [] {
      assert devices[|devices| - 1] in devices;
      NetIdle(m, devices[..|devices| - 1]);
    }
  }

  lemma RouterHasCluster(rank: string -> int, devices: seq<Device>, edges: seq<Edge>, r: Device)
    requires UniqueIds(devices) && r in devices && r.role == Router
    ensures
      var g := GroupsOf(rank, devices, edges);
      exists k :: 0 <= k < |g.clusters| && g.clusters[k].router == r
  {
    hide OrderedRouters, Prominent, Assigned, UniqueIds, Home;
    var routers := Filter(HasRole(Router), devices);
    FilterMembers(HasRole(Router), devices);
    UniqueRouters(devices);
    OrderingIsPermutation(rank, routers, edges);
    PermutedMembers(OrderedRouters(rank, routers, edges), routers);
    var ordered := OrderedRouters(rank, routers, edges);
    var k :| 0 <= k < |ordered| && ordered[k] == r;
    assert GroupsOf(rank, devices, edges).clusters[k].router == r;
  }

  lemma {:induction false} FilterDistinctBy(p: Device -> bool, devices: seq<Device>)
    requires UniqueIds(devices)
    ensures UniqueIds(Filter(p, devices))
  {
    if devices != [] {
      var init, last := devices[..|devices| - 1], devices[|devices| - 1];
      assert devices == init + [last];
      assert Map(IdOf(), devices) == Map(IdOf(), init) + [last.id];
      UniqueInit(Map(IdOf(), init), last.id);
      FilterDistinctBy(p, init);
      FilterMembers(p, init);
      var kept := Filter(p, init);
      forall i | 0 <= i < |kept| ensures kept[i].id != last.id {
        assert kept[i] in init;
        var j :| 0 <= j < |init| && init[j] == kept[i];
        assert Map(IdOf(), init)[j] == kept[i].id;
      }
    }
  }

  lemma UniqueRouters(devices: seq<Device>)
    requires UniqueIds(devices)
    ensures UniqueIds(Filter(HasRole(Router), devices))
  {
    FilterDistinctBy(HasRole(Router), devices);
  }

  lemma EndDeviceHasHome(rank: string -> int, devices: seq<Device>, edges: seq<Edge>, d: Device)
    requires UniqueIds(devices) && d in devices && d.role == EndDevice
    ensures InGroups(GroupsOf(rank, devices, edges), d)
  {
    hide OrderedRouters, Prominent, Assigned, UniqueIds;
    var coordinators, routers := Filter(HasRole(Coordinator), devices), Filter(HasRole(Router), devices);
    var ends := SortBy(ByName(rank), Filter(HasRole(EndDevice), devices));
    var best := Assigned(devices, edges);
    var g := GroupsOf(rank, devices, edges);
    FilterMembers(HasRole(EndDevice), devices);
    FilterMembers(HasRole(Router), devices);
    var home := Home(best, routers, coordinators, d);
    FilterMembers(HomeIs(best, routers, coordinators, home), ends);
    if home.Some? {
      var r :| r in routers && r.id == home.value;
      RouterHasCluster(rank, devices, edges, r);
      var k :| 0 <= k < |g.clusters| && g.clusters[k].router == r;
      assert InCluster(g.clusters[k], d);
    }
  }

  /** The groups hold every device, and only devices. */
  lemma GroupsHold(rank: string -> int, devices: seq<Device>, edges: seq<Edge>, d: Device)
    requires UniqueIds(devices)
    ensures InGroups(GroupsOf(rank, devices, edges), d) <==> d in devices
  {
    hide OrderedRouters, Home, Assigned, UniqueIds;
    var g := GroupsOf(rank, devices, edges);
    var coordinators, routers := Filter(HasRole(Coordinator), devices), Filter(HasRole(Router), devices);
    var ends := SortBy(ByName(rank), Filter(HasRole(EndDevice), devices));
    var best := Assigned(devices, edges);
    FilterMembers(HasRole(Coordinator), devices);
    FilterMembers(HasRole(Router), devices);
    FilterMembers(HasRole(EndDevice), devices);
    FilterMembers(HasRole(UnknownRole), devices);
    UniqueRouters(devices);
    OrderingIsPermutation(rank, routers, edges);
    PermutedMembers(OrderedRouters(rank, routers, edges), routers);
    if d in devices {
      if d.role == EndDevice { EndDeviceHasHome(rank, devices, edges, d); }
      if d.role == Router {
        RouterHasCluster(rank, devices, edges, d);
        var k :| 0 <= k < |g.clusters| && g.clusters[k].router == d;
        assert InCluster(g.clusters[k], d);
      }
    }
    FilterMembers(HomeIs(best, routers, coordinators, None), ends);
    forall k | 0 <= k < |g.clusters| && InCluster(g.clusters[k], d) ensures d in devices {
      var r := OrderedRouters(rank, routers, edges)[k];
      assert r in OrderedRouters(rank, routers, edges);
      FilterMembers(HomeIs(best, routers, coordinators, Some(r.id)), ends);
    }
  }

  lemma PlacementsShow(rank: string -> int, devices: seq<Device>, edges: seq<Edge>, mode: Mode, d: Device)
    requires UniqueIds(devices)
    ensures Shows(Placements(rank, devices, edges, mode), d) <==> d in devices
  {
    hide Hierarchy, ClusterMode, GroupsOf, UniqueIds, Grid, InGroups, Shows, CoordinatorX, HasIssue, AttentionTop;
    var g, coordinators := GroupsOf(rank, devices, edges), Filter(HasRole(Coordinator), devices);
    GroupsHold(rank, devices, edges, d);
    var shape := if mode == Backbone then BACKBONE else SMART;
    var x := CoordinatorX(Apply(map[], RouterBands(shape, g)), coordinators, g.clusters, edges);
    ShowsHierarchy(shape, g, x, d);
    ShowsClusterMode(g, d);
    if mode == Health {
      var issues := Issues(rank, devices, edges);
      FilterMembers(Flagged(), devices);
      FilterMembers(NotCoordinator(), Prominent(rank, edges, Filter(Flagged(), devices)));
      ShowsNothing(d);
      if issues != [] { ShowsGrid(issues, 0.0, AttentionTop(|issues|), AttentionCols(|issues|), d); }
      ShowsBoth(Hierarchy(shape, g, x), Attention(issues), d);
    }
  }

  /** Every mode places exactly the devices, so the safety net has nothing to do. */
  lemma EveryDevicePlaced(rank: string -> int, devices: seq<Device>, edges: seq<Edge>, mode: Mode)
    requires UniqueIds(devices)
    ensures
      var placed := Apply(map[], Placements(rank, devices, edges, mode));
      && placed.Keys == IdsOf(devices)
      && Stray(placed, devices) == 0
      && Layout(rank, devices, edges, mode) == placed
  {
    hide Apply, Placements, UniqueIds;
    var l := Placements(rank, devices, edges, mode);
    var placed := Apply(map[], l);
    forall id ensures id in placed <==> id in IdsOf(devices) {
      ApplyMeaning(l, id);
      if i :| 0 <= i < |l| && l[i].item.id == id {
        assert l[i] in l;
        assert Shows(l, l[i].item);
        PlacementsShow(rank, devices, edges, mode, l[i].item);
      }
      if d :| d in devices && d.id == id {
        PlacementsShow(rank, devices, edges, mode, d);
        var p :| p in l && p.item == d;
      }
    }
    NetIdle(placed, devices);
  }

  /* ---------------- no overlap ---------------- */

  /** No router is given more than eight members. */
  ghost predicate FewMembers(rank: string -> int, devices: seq<Device>, edges: seq<Edge>) {
    Within(GroupsOf(rank, devices, edges).clusters, 8)
  }

  /** No two boxes overlap: always, except that the cluster layout needs clusters of at most eight. */
  lemma LayoutNeverOverlaps(rank: string -> int, devices: seq<Device>, edges: seq<Edge>, mode: Mode)
    requires UniqueIds(devices)
    requires mode == Clusters ==> FewMembers(rank, devices, edges)
    ensures NoOverlap(Layout(rank, devices, edges, mode))
  {
    hide Hierarchy, ClusterMode, GroupsOf, UniqueIds, Attention, CoordinatorX, Layout, NoOverlap, AllApart, Issues;
    var g, coordinators := GroupsOf(rank, devices, edges), Filter(HasRole(Coordinator), devices);
    EveryDevicePlaced(rank, devices, edges, mode);
    var shape := if mode == Backbone then BACKBONE else SMART;
    var x := CoordinatorX(Apply(map[], RouterBands(shape, g)), coordinators, g.clusters, edges);
    HierarchyApart(shape, g, x);
    AttentionApart(shape, g, x, Issues(rank, devices, edges));
    if mode == Clusters { ClusterModeApart(g); }
    ApplyApart(Placements(rank, devices, edges, mode));
  }

  /* ---------------- the order of the edges ---------------- */

  lemma ProminentPermuted(rank: string -> int, edges: seq<Edge>, edges': seq<Edge>, devices: seq<Device>)
    requires multiset(edges) == multiset(edges')
    ensures Prominent(rank, edges, devices) == Prominent(rank, edges', devices)
  {
    hide ByName, NeighbourDegree;
    forall a, b ensures ByProminence(rank, edges)(a, b) == ByProminence(rank, edges')(a, b) {
      NeighbourDegreePermuted(edges, edges', a.id);
      NeighbourDegreePermuted(edges, edges', b.id);
    }
    SortBySame(ByProminence(rank, edges), ByProminence(rank, edges'), devices);
  }

  lemma NeighbourDegreePermuted(edges: seq<Edge>, edges': seq<Edge>, v: string)
    requires multiset(edges) == multiset(edges')
    ensures NeighbourDegree(edges, v) == NeighbourDegree(edges', v)
  {
    TotalPermuted(EndsAt(v), edges, edges');
  }

  lemma AssignedPermuted(devices: seq<Device>, edges: seq<Edge>, edges': seq<Edge>)
    requires multiset(edges) == multiset(edges')
    ensures Assigned(devices, edges) == Assigned(devices, edges')
  {
    hide Assigned, BestSoFar;
    AssignedBest(devices, edges);
    AssignedBest(devices, edges');
    AssignmentPermuted(devices, edges, edges', Assigned(devices, edges), Assigned(devices, edges'));
  }

  lemma GroupsPermuted(rank: string -> int, devices: seq<Device>, edges: seq<Edge>, edges': seq<Edge>)
    requires multiset(edges) == multiset(edges')
    ensures GroupsOf(rank, devices, edges) == GroupsOf(rank, devices, edges')
  {
    hide Prominent, Assigned, OrderedRouters, Home;
    ProminentPermuted(rank, edges, edges', Filter(HasRole(Coordinator), devices));
    ProminentPermuted(rank, edges, edges', Filter(HasRole(UnknownRole), devices));
    AssignedPermuted(devices, edges, edges');
    OrderingSame(rank, Filter(HasRole(Router), devices), edges, edges');
  }

  lemma {:induction false} PullsPermuted(
    at: Positions, ids: set<string>, edges: seq<Edge>, edges': seq<Edge>, coordinators: seq<string>,
    clusters: seq<Cluster<Device>>)
    requires multiset(edges) == multiset(edges')
    ensures Pulls(at, ids, edges, coordinators, clusters) == Pulls(at, ids, edges', coordinators, clusters)
  {
    hide PairWeight, PairKey;
    if clusters != [] {
      var id := clusters[|clusters| - 1].router.id;
      PullsPermuted(at, ids, edges, edges', coordinators, clusters[..|clusters| - 1]);
      forall c ensures Strength(ids, edges, id)(c) == Strength(ids, edges', id)(c) {
        PairWeightPermuted(ids, edges, edges', PairKey(c, id));
      }
      TotalSameOn(Strength(ids, edges, id), Strength(ids, edges', id), coordinators);
    }
  }

  lemma CoordinatorXPermuted(
    at: Positions, coordinators: seq<Device>, clusters: seq<Cluster<Device>>, edges: seq<Edge>, edges': seq<Edge>)
    requires multiset(edges) == multiset(edges')
    ensures CoordinatorX(at, coordinators, clusters, edges) == CoordinatorX(at, coordinators, clusters, edges')
  {
    hide Pulls, Barycenter;
    var routers := set c | c in clusters :: c.router.id;
    PullsPermuted(at, IdsOf(coordinators) + routers, edges, edges', Firsts(Map(IdOf(), coordinators)), clusters);
  }

  /** Listing the edges in another order draws the same picture. */
  lemma LayoutPermuted(rank: string -> int, devices: seq<Device>, edges: seq<Edge>, edges': seq<Edge>, mode: Mode)
    requires multiset(edges) == multiset(edges')
    ensures Layout(rank, devices, edges, mode) == Layout(rank, devices, edges', mode)
  {
    hide GroupsOf, CoordinatorX, Apply, Prominent, Hierarchy, ClusterMode, Attention, Net;
    var g, coordinators := GroupsOf(rank, devices, edges), Filter(HasRole(Coordinator), devices);
    GroupsPermuted(rank, devices, edges, edges');
    ProminentPermuted(rank, edges, edges', Filter(Flagged(), devices));
    CoordinatorXPermuted(Apply(map[], RouterBands(SMART, g)), coordinators, g.clusters, edges, edges');
    CoordinatorXPermuted(Apply(map[], RouterBands(BACKBONE, g)), coordinators, g.clusters, edges, edges');
  }
}
