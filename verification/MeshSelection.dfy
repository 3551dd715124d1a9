/**
 Which evidence edges the focused mesh view draws: the adaptive "best neighbour
 links" subset and the visibility rules around it.
 */
module MeshSelection {
  import opened Basics
  import opened Sequences
  import opened MeshTypes

  const MIN_LINKS := 1
  const MAX_LINKS := 4

  /* ---------------- best neighbour links ---------------- */

  /** Recorded LQI first and highest first, then by id. */
  function StrongerLe(rank: string -> int): (Edge, Edge) -> bool {
    (a: Edge, b: Edge) =>
      if a.lqi.Some? && b.lqi.Some? then
        if a.lqi.value == b.lqi.value then rank(a.id) <= rank(b.id) else a.lqi.value > b.lqi.value
      else if a.lqi.Some? then true
      else if b.lqi.Some? then false
      else rank(a.id) <= rank(b.id)
  }

  lemma StrongerLePreorder(rank: string -> int)
    ensures Preorder(StrongerLe(rank))
  {
  }

  function Eligible(exclude: set<string>): Edge -> bool {
    (e: Edge) => e.evidence.LatestNeighbor? && PairKey(e.source, e.target) !in exclude
  }

  function Once(e: Edge, v: string, w: string): seq<Edge> { if w == v then [e] else [] }

  /** The edges filed under a device: one entry for each endpoint that is this device. */
  function FiledUnder(v: string, edges: seq<Edge>): seq<Edge> {
    if edges == [] then []
    else
      var e := edges[|edges| - 1];
      FiledUnder(v, edges[..|edges| - 1]) + Once(e, v, e.source) + Once(e, v, e.target)
  }

  function Strongest(rank: string -> int, v: string, edges: seq<Edge>, n: nat): seq<Edge> {
    var sorted := SortBy(StrongerLe(rank), FiledUnder(v, edges));
    sorted[..Min(n, |sorted|)]
  }

  function Endpoints(edges: seq<Edge>): set<string> {
    (set e | e in edges :: e.source) + (set e | e in edges :: e.target)
  }

  function Ids(edges: seq<Edge>): set<string> { set e | e in edges :: e.id }

  /** An edge is kept if it is among the `n` strongest of either endpoint. */
  function Best(rank: string -> int, edges: seq<Edge>, n: nat, exclude: set<string>): set<string> {
    var eligible := Filter(Eligible(exclude), edges);
    set v, e | v in Endpoints(eligible) && e in Strongest(rank, v, eligible, n) :: e.id
  }

  function Entry(byDevice: map<string, seq<Edge>>, v: string): seq<Edge> {
    if v in byDevice then byDevice[v] else []
  }

  ghost predicate Filed(byDevice: map<string, seq<Edge>>, edges: seq<Edge>) {
    && byDevice.Keys == Endpoints(edges)
    && forall v :: Entry(byDevice, v) == FiledUnder(v, edges)
  }

  lemma FiledAppend(v: string, edges: seq<Edge>, e: Edge)
    ensures FiledUnder(v, edges + [e]) == FiledUnder(v, edges) + Once(e, v, e.source) + Once(e, v, e.target)
    ensures Endpoints(edges + [e]) == Endpoints(edges) + {e.source, e.target}
  {
    assert (edges + [e])[..|edges|] == edges;
  }

  lemma {:induction false} UnfiledElsewhere(v: string, edges: seq<Edge>)
    ensures FiledUnder(v, edges) == [] <==> v !in Endpoints(edges)
    ensures forall e :: e in FiledUnder(v, edges) <==> e in edges && (e.source == v || e.target == v)
  {
    if edges != [] {
      var init, last := edges[..|edges| - 1], edges[|edges| - 1];
      UnfiledElsewhere(v, init);
      assert edges == init + [last];
      FiledAppend(v, init, last);
    }
  }

  function File(byDevice: map<string, seq<Edge>>, v: string, e: Edge): map<string, seq<Edge>> {
    byDevice[v := Entry(byDevice, v) + [e]]
  }

  lemma FileEntry(byDevice: map<string, seq<Edge>>, w: string, e: Edge, v: string)
    ensures Entry(File(byDevice, w, e), v) == Entry(byDevice, v) + Once(e, v, w)
    ensures File(byDevice, w, e).Keys == byDevice.Keys + {w}
  {
  }

  lemma FileBoth(byDevice: map<string, seq<Edge>>, edges: seq<Edge>, e: Edge)
    requires Filed(byDevice, edges)
    ensures Filed(File(File(byDevice, e.source, e), e.target, e), edges + [e])
  {
    hide File, Entry, FiledUnder, Once;
    var half := File(byDevice, e.source, e);
    forall v ensures Entry(File(half, e.target, e), v) == FiledUnder(v, edges + [e]) {
      FileEntry(byDevice, e.source, e, v);
      FileEntry(half, e.target, e, v);
      FiledAppend(v, edges, e);
    }
    FileEntry(byDevice, e.source, e, "");
    FileEntry(half, e.target, e, "");
    FiledAppend("", edges, e);
  }

  method FileEdges(edges: seq<Edge>, exclude: set<string>) returns (byDevice: map<string, seq<Edge>>)
    ensures Filed(byDevice, Filter(Eligible(exclude), edges))
  {
    hide Filed, File;
    byDevice := map[];
    assert Filed(byDevice, []) by { NothingFiled(); }
    for i := 0 to |edges|
      invariant Filed(byDevice, Filter(Eligible(exclude), edges[..i]))
    {
      var edge := edges[i];
      assert edges[..i + 1] == edges[..i] + [edge];
      FilterAppend(Eligible(exclude), edges[..i], edge);
      if edge.evidence.LatestNeighbor? {
        if PairKey(edge.source, edge.target) !in exclude {
          FileBoth(byDevice, Filter(Eligible(exclude), edges[..i]), edge);
          byDevice := File(File(byDevice, edge.source, edge), edge.target, edge);
        }
      }
    }
    assert edges[..|edges|] == edges;
  }

  lemma NothingFiled()
    ensures Filed(map[], [])
  {
  }

  method SelectBestNeighbourLinks(
    rank: string -> int, edges: seq<Edge>, linksPerDevice: nat, exclude: set<string>)
    returns (chosen: set<string>)
    ensures chosen == Best(rank, edges, linksPerDevice, exclude)
  {
    hide Strongest, FiledUnder;
    var byDevice := FileEdges(edges, exclude);
    ghost var eligible := Filter(Eligible(exclude), edges);
    chosen := {};
    var todo := byDevice.Keys;
    while todo != {}
      invariant todo <= byDevice.Keys
      invariant chosen == set v, e | v in byDevice.Keys - todo && e in Strongest(rank, v, eligible, linksPerDevice) :: e.id
      decreases todo
    {
      var v :| v in todo;
      var sorted := SortBy(StrongerLe(rank), byDevice[v]);
      var top := sorted[..Min(linksPerDevice, |sorted|)];
      StrongestIs(rank, v, eligible, linksPerDevice, sorted);
      chosen := chosen + Ids(top);
      todo := todo - {v};
    }
  }

  lemma StrongestIs(rank: string -> int, v: string, edges: seq<Edge>, n: nat, sorted: seq<Edge>)
    requires sorted == SortBy(StrongerLe(rank), FiledUnder(v, edges))
    ensures Strongest(rank, v, edges, n) == sorted[..Min(n, |sorted|)]
  {
  }

  /* ---------------- the budget ---------------- */

  lemma StrongestGrows(rank: string -> int, v: string, edges: seq<Edge>, m: nat, n: nat)
    requires m <= n
    ensures forall e :: e in Strongest(rank, v, edges, m) ==> e in Strongest(rank, v, edges, n)
  {
    var small, large := Strongest(rank, v, edges, m), Strongest(rank, v, edges, n);
    assert small == large[..|small|];
  }

  /** A larger per-device allowance never drops a link. */
  lemma BestGrows(rank: string -> int, edges: seq<Edge>, m: nat, n: nat, exclude: set<string>)
    requires m <= n
    ensures Best(rank, edges, m, exclude) <= Best(rank, edges, n, exclude)
    ensures |Best(rank, edges, m, exclude)| <= |Best(rank, edges, n, exclude)|
  {
    var eligible := Filter(Eligible(exclude), edges);
    forall id | id in Best(rank, edges, m, exclude) ensures id in Best(rank, edges, n, exclude) {
      var v, e :| v in Endpoints(eligible) && e in Strongest(rank, v, eligible, m) && e.id == id;
      StrongestGrows(rank, v, eligible, m, n);
    }
    SubsetSize(Best(rank, edges, m, exclude), Best(rank, edges, n, exclude));
  }

  lemma AtMost(rank: string -> int, v: string, edges: seq<Edge>, n: nat)
    ensures |Strongest(rank, v, edges, n)| <= n
  {
  }

  lemma {:induction false} ImageSize(f: string -> string, s: set<string>)
    ensures |set v | v in s :: f(v)| <= |s|
    decreases s
  {
    if s != {} {
      var v :| v in s;
      ImageSize(f, s - {v});
      assert (set w | w in s :: f(w)) == (set w | w in s - {v} :: f(w)) + {f(v)};
    }
  }

  /** One link per device is never more links than devices. */
  lemma OnePerDevice(rank: string -> int, devices: set<string>, edges: seq<Edge>)
    ensures |set v, e | v in devices && e in Strongest(rank, v, edges, 1) :: e.id| <= |devices|
  {
    hide Strongest;
    var all := set v, e | v in devices && e in Strongest(rank, v, edges, 1) :: e.id;
    var first := (v: string) => var top := Strongest(rank, v, edges, 1); if top == [] then "" else top[0].id;
    var image := set v | v in devices :: first(v);
    forall id | id in all ensures id in image {
      var v, e :| v in devices && e in Strongest(rank, v, edges, 1) && e.id == id;
      AtMost(rank, v, edges, 1);
      assert first(v) == id;
    }
    ImageSize(first, devices);
    SubsetSize(all, image);
  }

  lemma BestOneBound(rank: string -> int, edges: seq<Edge>, exclude: set<string>)
    ensures |Best(rank, edges, 1, exclude)| <= |Endpoints(edges)|
  {
    var eligible := Filter(Eligible(exclude), edges);
    FilterMembers(Eligible(exclude), edges);
    OnePerDevice(rank, Endpoints(eligible), eligible);
    SubsetSize(Endpoints(eligible), Endpoints(edges));
  }

  /** Half as many links again as nodes, rounded up. */
  function Budget(nodeCount: nat): nat { (3 * Max(nodeCount, 1) + 1) / 2 }

  lemma BudgetCovers(nodeCount: nat)
    ensures nodeCount <= Budget(nodeCount)
  {
  }

  /** The largest allowance whose selection fits the budget; when none fits, the smallest allowance. */
  method SelectAdaptive(rank: string -> int, edges: seq<Edge>, nodeCount: nat, exclude: set<string>)
    returns (edgeIds: set<string>, linksPerDevice: nat)
    ensures MIN_LINKS <= linksPerDevice <= MAX_LINKS
    ensures edgeIds == Best(rank, edges, linksPerDevice, exclude)
    ensures forall n :: MIN_LINKS <= n <= MAX_LINKS && |Best(rank, edges, n, exclude)| <= Budget(nodeCount) ==>
              n <= linksPerDevice
    ensures |edgeIds| <= Budget(nodeCount) || linksPerDevice == MIN_LINKS
    ensures |Endpoints(edges)| <= nodeCount ==> |edgeIds| <= Budget(nodeCount)
  {
    hide Best, Budget;
    var budget := Budget(nodeCount);
    var fallback: Option<(set<string>, nat)> := None;
    var n := MAX_LINKS;
    BestOneBound(rank, edges, exclude);
    assert nodeCount <= budget by { BudgetCovers(nodeCount); }
    while n >= MIN_LINKS
      invariant MIN_LINKS - 1 <= n <= MAX_LINKS
      invariant forall m :: n < m <= MAX_LINKS ==> |Best(rank, edges, m, exclude)| > budget
      invariant n < MAX_LINKS ==> fallback == Some((Best(rank, edges, n + 1, exclude), n + 1))
      decreases n
    {
      var ids := SelectBestNeighbourLinks(rank, edges, n, exclude);
      if |ids| <= budget { return ids, n; }
      fallback := Some((ids, n));
      n := n - 1;
    }
    return fallback.value.0, fallback.value.1;
  }

  /**
   When every edge endpoint is a device, the budget always holds: the allowance found is the largest of
   the four that fits, and the fallback beyond the budget is never taken.
   */
  lemma BudgetAlwaysFits(rank: string -> int, edges: seq<Edge>, devices: set<string>, exclude: set<string>)
    requires Endpoints(edges) <= devices
    ensures |Best(rank, edges, MIN_LINKS, exclude)| <= Budget(|devices|)
    ensures forall m, n :: MIN_LINKS <= m <= n && |Best(rank, edges, n, exclude)| <= Budget(|devices|) ==>
              |Best(rank, edges, m, exclude)| <= Budget(|devices|)
  {
    BestOneBound(rank, edges, exclude);
    SubsetSize(Endpoints(edges), devices);
    forall m: nat, n: nat | m <= n
      ensures |Best(rank, edges, m, exclude)| <= |Best(rank, edges, n, exclude)|
    {
      BestGrows(rank, edges, m, n, exclude);
    }
  }

  /* ---------------- what is drawn ---------------- */

  datatype Controls = Controls(
    routeHints: bool, bestNeighbourLinks: bool, allNeighbourLinks: bool, oldUncertainLinks: bool,
    recentMissingLinks: bool, lastKnownLinks: bool, suggestedInvestigationLinks: bool)

  datatype Context = Context(
    best: set<string>, recentMissing: set<string>, passiveHints: set<string>,
    selectedNode: Option<string>, selectedEdge: Option<Edge>)

  function RouteCovered(edges: seq<Edge>): set<string> {
    set e | e in edges && e.evidence.LatestRoute? :: PairKey(e.source, e.target)
  }

  method CollectRouteCoveredPairs(edges: seq<Edge>) returns (pairs: set<string>)
    ensures pairs == RouteCovered(edges)
  {
    pairs := {};
    for i := 0 to |edges|
      invariant pairs == RouteCovered(edges[..i])
    {
      assert edges[..i + 1] == edges[..i] + [edges[i]];
      if edges[i].evidence.LatestRoute? {
        pairs := pairs + {PairKey(edges[i].source, edges[i].target)};
      }
    }
    assert edges[..|edges|] == edges;
  }

  function FocusNodes(context: Context): set<string> {
    (if context.selectedNode.Some? && context.selectedNode.value != "" then {context.selectedNode.value} else {}) +
    (if context.selectedEdge.Some? then {context.selectedEdge.value.source, context.selectedEdge.value.target} else {})
  }

  function Drawn(edges: seq<Edge>, controls: Controls, context: Context): Edge -> bool {
    var focus := FocusNodes(context);
    var covered := if controls.routeHints && !controls.allNeighbourLinks then RouteCovered(edges) else {};
    (e: Edge) =>
      if e.source in focus || e.target in focus then true
      else if e.issueRelated then true
      else
        match e.evidence
        case LatestRoute => controls.routeHints
        case LatestNeighbor =>
          if controls.allNeighbourLinks then true
          else if PairKey(e.source, e.target) in covered then false
          else controls.bestNeighbourLinks && e.id in context.best
        case StaleLowConfidence => controls.oldUncertainLinks
        case HistoricalNeighbor => controls.recentMissingLinks && e.id in context.recentMissing
        case HistoricalRoute => controls.recentMissingLinks && e.id in context.recentMissing
        case LastKnownLink => controls.lastKnownLinks
        case PassiveAssociation => controls.suggestedInvestigationLinks && e.id in context.passiveHints
  }

  function VisibleEdges(edges: seq<Edge>, controls: Controls, context: Context): seq<Edge> {
    Filter(Drawn(edges, controls, context), edges)
  }

  /** The strongest eligible link of a device is always selected. */
  lemma StrongestSelected(rank: string -> int, edges: seq<Edge>, n: nat, exclude: set<string>, v: string, e: Edge)
    returns (f: Edge)
    requires n >= 1 && e in edges && Eligible(exclude)(e) && Touches(v)(e)
    ensures f in edges && Eligible(exclude)(f) && Touches(v)(f) && f.id in Best(rank, edges, n, exclude)
  {
    var eligible := Filter(Eligible(exclude), edges);
    FilterMembers(Eligible(exclude), edges);
    UnfiledElsewhere(v, eligible);
    var sorted := SortBy(StrongerLe(rank), FiledUnder(v, eligible));
    assert e in FiledUnder(v, eligible);
    assert sorted != [];
    f := sorted[0];
    assert f in sorted && f in FiledUnder(v, eligible);
    assert f in Strongest(rank, v, eligible, n) by { assert Strongest(rank, v, eligible, n)[0] == f; }
  }

  /**
   With route hints and best neighbour links on, a device that has any latest neighbour or route
   evidence is never left without a drawn link, whatever else is toggled or selected.
   */
  lemma NobodyStranded(
    rank: string -> int, edges: seq<Edge>, n: nat, controls: Controls, context: Context, v: string, e: Edge)
    requires BarFree(edges) && n >= MIN_LINKS
    requires controls.routeHints && controls.bestNeighbourLinks
    requires context.best == Best(rank, edges, n, RouteCovered(edges))
    requires e in edges && Touches(v)(e) && (e.evidence.LatestNeighbor? || e.evidence.LatestRoute?)
    ensures exists f :: f in VisibleEdges(edges, controls, context) && Touches(v)(f)
  {
    FilterMembers(Drawn(edges, controls, context), edges);
    if e.evidence.LatestRoute? {
      assert e in VisibleEdges(edges, controls, context);
    } else if PairKey(e.source, e.target) in RouteCovered(edges) {
      var r :| r in edges && r.evidence.LatestRoute? && PairKey(r.source, r.target) == PairKey(e.source, e.target);
      PairKeyMeaning(r.source, r.target, e.source, e.target);
      assert r in VisibleEdges(edges, controls, context);
    } else {
      var f := StrongestSelected(rank, edges, n, RouteCovered(edges), v, e);
      assert f in VisibleEdges(edges, controls, context);
    }
  }

  /* ---------------- order independence ---------------- */

  ghost predicate RankedIds(rank: string -> int, edges: seq<Edge>) {
    forall e, f :: e in edges && f in edges && rank(e.id) == rank(f.id) ==> e == f
  }

  lemma OnceCount(e: Edge, v: string, w: string, x: Edge)
    ensures multiset(Once(e, v, w))[x] == if e == x then |Once(e, v, w)| else 0
  {
  }

  /** How often an edge is filed under a device: once for each endpoint that is the device. */
  function Entries(e: Edge, v: string): nat { |Once(e, v, e.source)| + |Once(e, v, e.target)| }

  lemma FiledCountStep(v: string, init: seq<Edge>, last: Edge, e: Edge)
    requires multiset(FiledUnder(v, init))[e] == multiset(init)[e] * Entries(e, v)
    ensures multiset(FiledUnder(v, init + [last]))[e] == multiset(init + [last])[e] * Entries(e, v)
  {
    FiledAppend(v, init, last);
    OnceCount(last, v, last.source, e);
    OnceCount(last, v, last.target, e);
    hide FiledUnder, Once;
    CountStep(FiledUnder(v, init), Once(last, v, last.source), Once(last, v, last.target), e);
    Distribute(multiset(init)[e], Entries(e, v));
  }

  lemma {:induction false} FiledCount(v: string, edges: seq<Edge>, e: Edge)
    ensures multiset(FiledUnder(v, edges))[e] == multiset(edges)[e] * Entries(e, v)
  {
    if edges == [] {
      assert multiset(edges)[e] * Entries(e, v) == 0;
    } else {
      var init, last := edges[..|edges| - 1], edges[|edges| - 1];
      assert edges == init + [last];
      FiledCount(v, init, e);
      hide Entries, FiledUnder;
      FiledCountStep(v, init, last, e);
    }
  }

  lemma CountStep(a: seq<Edge>, b: seq<Edge>, c: seq<Edge>, e: Edge)
    ensures multiset(a + b + c)[e] == multiset(a)[e] + multiset(b)[e] + multiset(c)[e]
  {
  }

  lemma Distribute(n: nat, k: nat)
    ensures (n + 1) * k == n * k + k
  {
  }

  lemma StrongestPermuted(rank: string -> int, v: string, edges: seq<Edge>, edges': seq<Edge>, n: nat)
    requires multiset(edges) == multiset(edges') && RankedIds(rank, edges)
    ensures Strongest(rank, v, edges, n) == Strongest(rank, v, edges', n)
  {
    var filed, filed' := FiledUnder(v, edges), FiledUnder(v, edges');
    forall e ensures multiset(filed)[e] == multiset(filed')[e] {
      FiledCount(v, edges, e);
      FiledCount(v, edges', e);
    }
    assert multiset(filed) == multiset(filed');
    StrongerLePreorder(rank);
    assert TieFree(StrongerLe(rank), filed) by {
      UnfiledElsewhere(v, edges);
      forall a, b | a in filed && b in filed && StrongerLe(rank)(a, b) && StrongerLe(rank)(b, a) ensures a == b {
        assert rank(a.id) == rank(b.id);
      }
    }
    SortByPermuted(StrongerLe(rank), filed, filed');
  }

  /** The selection does not depend on the order of the edges. */
  lemma BestPermuted(rank: string -> int, edges: seq<Edge>, edges': seq<Edge>, n: nat, exclude: set<string>)
    requires multiset(edges) == multiset(edges') && RankedIds(rank, edges)
    ensures Best(rank, edges, n, exclude) == Best(rank, edges', n, exclude)
  {
    hide Strongest, Eligible;
    var eligible, eligible' := Filter(Eligible(exclude), edges), Filter(Eligible(exclude), edges');
    FilterPermuted(Eligible(exclude), edges, edges');
    FilterMembers(Eligible(exclude), edges);
    PermutedMembers(eligible, eligible');
    assert Endpoints(eligible) == Endpoints(eligible');
    forall v ensures Strongest(rank, v, eligible, n) == Strongest(rank, v, eligible', n) {
      StrongestPermuted(rank, v, eligible, eligible', n);
    }
  }
}
