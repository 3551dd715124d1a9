/**
 The capped selections of recent-missing edges and passive hints: one greedy
 pass over a priority order under a total cap and a per-device cap. The result is
 a maximal capped subset, at most a factor two from the largest one, and nothing
 of lower priority ever displaces an edge.
 */
module MeshMatching {
  import opened Basics
  import opened Sequences
  import opened MeshTypes

  const MAX_RECENT_MISSING_LINKS_TOTAL := 100
  const MAX_RECENT_MISSING_LINKS_PER_NODE := 3
  const MAX_PASSIVE_HINTS_TOTAL := 100
  const MAX_PASSIVE_HINTS_PER_NODE := 3

  /** How many of these edges touch a device. An edge from a device to itself counts once. */
  function Degree(edges: seq<Edge>, v: string): nat { |Filter(Touches(v), edges)| }

  /** Whether one more edge fits under both caps. */
  predicate Fits(chosen: seq<Edge>, e: Edge, totalCap: nat, perNodeCap: nat) {
    |chosen| < totalCap && Degree(chosen, e.source) < perNodeCap && Degree(chosen, e.target) < perNodeCap
  }

  /** The edges one greedy pass keeps, in order. */
  function Greedy(ordered: seq<Edge>, totalCap: nat, perNodeCap: nat): seq<Edge> {
    if ordered == [] then []
    else
      var chosen := Greedy(ordered[..|ordered| - 1], totalCap, perNodeCap);
      var e := ordered[|ordered| - 1];
      if Fits(chosen, e, totalCap, perNodeCap) then chosen + [e] else chosen
  }

  function Ids(edges: seq<Edge>): set<string> { set e | e in edges :: e.id }

  ghost predicate UniqueIds(edges: seq<Edge>) {
    forall i, j :: 0 <= i < j < |edges| ==> edges[i].id != edges[j].id
  }

  function Lookup(perNode: map<string, nat>, v: string): nat { if v in perNode then perNode[v] else 0 }

  ghost predicate CountsDegrees(perNode: map<string, nat>, chosen: seq<Edge>) {
    forall v :: Lookup(perNode, v) == Degree(chosen, v)
  }

  lemma DegreeAppend(chosen: seq<Edge>, e: Edge, v: string)
    ensures Degree(chosen + [e], v) == Degree(chosen, v) + (if Touches(v)(e) then 1 else 0)
  {
    FilterAppend(Touches(v), chosen, e);
  }

  lemma CountBoth(perNode: map<string, nat>, chosen: seq<Edge>, e: Edge)
    requires CountsDegrees(perNode, chosen)
    ensures CountsDegrees(
              perNode[e.source := Lookup(perNode, e.source) + 1][e.target := Lookup(perNode, e.target) + 1],
              chosen + [e])
  {
    forall v ensures Lookup(
                       perNode[e.source := Lookup(perNode, e.source) + 1][e.target := Lookup(perNode, e.target) + 1],
                       v) == Degree(chosen + [e], v) {
      DegreeAppend(chosen, e, v);
    }
  }

  lemma GreedyAppend(ordered: seq<Edge>, e: Edge, totalCap: nat, perNodeCap: nat)
    ensures
      var chosen := Greedy(ordered, totalCap, perNodeCap);
      Greedy(ordered + [e], totalCap, perNodeCap) ==
        if Fits(chosen, e, totalCap, perNodeCap) then chosen + [e] else chosen
  {
    assert (ordered + [e])[..|ordered|] == ordered;
  }

  lemma {:induction false} GreedyKeeps(ordered: seq<Edge>, totalCap: nat, perNodeCap: nat)
    ensures forall e :: e in Greedy(ordered, totalCap, perNodeCap) ==> e in ordered
  {
    if ordered != [] {
      var init := ordered[..|ordered| - 1];
      GreedyKeeps(init, totalCap, perNodeCap);
      assert ordered == init + [ordered[|ordered| - 1]];
    }
  }

  lemma {:induction false} IdsSize(edges: seq<Edge>)
    requires UniqueIds(edges)
    ensures |Ids(edges)| == |edges|
  {
    if edges == [] {
      assert Ids(edges) == {};
    } else {
      var init, last := edges[..|edges| - 1], edges[|edges| - 1];
      IdsSize(init);
      assert edges == init + [last];
      assert Ids(edges) == Ids(init) + {last.id};
      assert last.id !in Ids(init);
    }
  }

  lemma {:induction false} GreedyUnique(ordered: seq<Edge>, totalCap: nat, perNodeCap: nat)
    requires UniqueIds(ordered)
    ensures UniqueIds(Greedy(ordered, totalCap, perNodeCap))
    ensures |Ids(Greedy(ordered, totalCap, perNodeCap))| == |Greedy(ordered, totalCap, perNodeCap)|
  {
    if ordered != [] {
      var init := ordered[..|ordered| - 1];
      GreedyUnique(init, totalCap, perNodeCap);
      GreedyKeeps(init, totalCap, perNodeCap);
      forall e | e in init ensures e.id != ordered[|ordered| - 1].id {
        var k :| 0 <= k < |init| && init[k] == e;
        assert ordered[k] == e;
      }
    }
    IdsSize(Greedy(ordered, totalCap, perNodeCap));
  }

  /** The greedy pass as written: a set of ids, a count per device, and a break at the total cap. */
  method TakeCapped(ordered: seq<Edge>, totalCap: nat, perNodeCap: nat) returns (chosen: set<string>)
    requires UniqueIds(ordered)
    ensures chosen == Ids(Greedy(ordered, totalCap, perNodeCap))
  {
    hide Degree, UniqueIds, Greedy, CountsDegrees;
    chosen := {};
    ghost var kept: seq<Edge> := [];
    var perNode: map<string, nat> := map[];
    assert CountsDegrees(perNode, kept) by { NothingCounted(); }
    NothingKept(totalCap, perNodeCap);
    assert ordered[..0] == [];
    for i := 0 to |ordered|
      invariant kept == Greedy(ordered[..i], totalCap, perNodeCap)
      invariant chosen == Ids(kept)
      invariant CountsDegrees(perNode, kept)
    {
      var edge := ordered[i];
      assert ordered[..i + 1] == ordered[..i] + [edge];
      GreedyAppend(ordered[..i], edge, totalCap, perNodeCap);
      UniquePrefix(ordered, i);
      GreedyUnique(ordered[..i], totalCap, perNodeCap);
      if |chosen| >= totalCap {
        FullStaysFull(ordered, i, totalCap, perNodeCap);
        return;
      }
      var sourceCount := Lookup(perNode, edge.source);
      var targetCount := Lookup(perNode, edge.target);
      CountsAt(perNode, kept, edge.source);
      CountsAt(perNode, kept, edge.target);
      if sourceCount >= perNodeCap || targetCount >= perNodeCap { continue; }
      CountBoth(perNode, kept, edge);
      chosen := chosen + {edge.id};
      perNode := perNode[edge.source := sourceCount + 1][edge.target := targetCount + 1];
      kept := kept + [edge];
    }
    assert ordered[..|ordered|] == ordered;
  }

  lemma NothingKept(totalCap: nat, perNodeCap: nat)
    ensures Greedy([], totalCap, perNodeCap) == []
  {
  }

  lemma CountsAt(perNode: map<string, nat>, chosen: seq<Edge>, v: string)
    requires CountsDegrees(perNode, chosen)
    ensures Lookup(perNode, v) == Degree(chosen, v)
  {
  }

  lemma NothingCounted()
    ensures CountsDegrees(map[], [])
  {
  }

  lemma UniquePrefix(ordered: seq<Edge>, i: nat)
    requires UniqueIds(ordered) && i <= |ordered|
    ensures UniqueIds(ordered[..i])
  {
  }

  lemma {:induction false} FullStaysFull(ordered: seq<Edge>, i: nat, totalCap: nat, perNodeCap: nat)
    requires i <= |ordered| && |Greedy(ordered[..i], totalCap, perNodeCap)| >= totalCap
    ensures Greedy(ordered, totalCap, perNodeCap) == Greedy(ordered[..i], totalCap, perNodeCap)
  {
    if i == |ordered| {
      assert ordered[..i] == ordered;
    } else {
      var init := ordered[..|ordered| - 1];
      assert init[..i] == ordered[..i];
      FullStaysFull(init, i, totalCap, perNodeCap);
    }
  }

  /* ---------------- caps and maximality ---------------- */

  ghost predicate WithinCaps(chosen: seq<Edge>, totalCap: nat, perNodeCap: nat) {
    |chosen| <= totalCap && forall v :: Degree(chosen, v) <= perNodeCap
  }

  lemma {:induction false} GreedyWithinCaps(ordered: seq<Edge>, totalCap: nat, perNodeCap: nat)
    ensures WithinCaps(Greedy(ordered, totalCap, perNodeCap), totalCap, perNodeCap)
  {
    if ordered != [] {
      var init, last := ordered[..|ordered| - 1], ordered[|ordered| - 1];
      GreedyWithinCaps(init, totalCap, perNodeCap);
      var chosen := Greedy(init, totalCap, perNodeCap);
      forall v ensures Degree(Greedy(ordered, totalCap, perNodeCap), v) <= perNodeCap {
        DegreeAppend(chosen, last, v);
      }
    }
  }

  /** An earlier result is the beginning of a later one. */
  lemma {:induction false} GreedyPrefix(ordered: seq<Edge>, i: nat, totalCap: nat, perNodeCap: nat)
    requires i <= |ordered|
    ensures Greedy(ordered[..i], totalCap, perNodeCap) <= Greedy(ordered, totalCap, perNodeCap)
  {
    if i == |ordered| {
      assert ordered[..i] == ordered;
    } else {
      var init := ordered[..|ordered| - 1];
      assert init[..i] == ordered[..i];
      GreedyPrefix(init, i, totalCap, perNodeCap);
    }
  }

  lemma {:induction false} DegreeGrows(a: seq<Edge>, b: seq<Edge>, v: string)
    requires a <= b
    ensures Degree(a, v) <= Degree(b, v)
  {
    if |a| < |b| {
      DegreeGrows(a, b[..|b| - 1], v);
      DegreeAppend(b[..|b| - 1], b[|b| - 1], v);
      assert b == b[..|b| - 1] + [b[|b| - 1]];
    } else {
      assert a == b;
    }
  }

  /**
   An edge is left out only because, when its turn came, the total cap was reached or one of its
   devices was full: filled, either way, by edges that stand before it.
   */
  lemma LeftOutByEarlier(ordered: seq<Edge>, i: nat, totalCap: nat, perNodeCap: nat)
    requires i < |ordered| && ordered[i] !in Greedy(ordered, totalCap, perNodeCap)
    ensures
      var before := Greedy(ordered[..i], totalCap, perNodeCap);
      && before <= Greedy(ordered, totalCap, perNodeCap)
      && (forall e :: e in before ==> e in ordered[..i])
      && (|| |before| == totalCap
          || Degree(before, ordered[i].source) == perNodeCap
          || Degree(before, ordered[i].target) == perNodeCap)
  {
    hide Degree, Greedy;
    GreedyPrefix(ordered, i, totalCap, perNodeCap);
    GreedyKeeps(ordered[..i], totalCap, perNodeCap);
    GreedyWithinCaps(ordered[..i], totalCap, perNodeCap);
    FittingIsKept(ordered, i, totalCap, perNodeCap);
  }

  lemma FittingIsKept(ordered: seq<Edge>, i: nat, totalCap: nat, perNodeCap: nat)
    requires i < |ordered|
    ensures Fits(Greedy(ordered[..i], totalCap, perNodeCap), ordered[i], totalCap, perNodeCap) ==>
              ordered[i] in Greedy(ordered, totalCap, perNodeCap)
  {
    hide Degree, Greedy;
    var before, after := Greedy(ordered[..i], totalCap, perNodeCap), Greedy(ordered[..i + 1], totalCap, perNodeCap);
    GreedyPrefix(ordered, i + 1, totalCap, perNodeCap);
    assert ordered[..i + 1] == ordered[..i] + [ordered[i]];
    GreedyAppend(ordered[..i], ordered[i], totalCap, perNodeCap);
    assert forall e :: e in after ==> e in Greedy(ordered, totalCap, perNodeCap);
    assert Fits(before, ordered[i], totalCap, perNodeCap) ==> after[|before|] == ordered[i];
  }

  /** Below the total cap, every edge left out has a device at its cap. */
  lemma Maximal(ordered: seq<Edge>, totalCap: nat, perNodeCap: nat, e: Edge)
    requires e in ordered && e !in Greedy(ordered, totalCap, perNodeCap)
    requires |Greedy(ordered, totalCap, perNodeCap)| < totalCap
    ensures
      var chosen := Greedy(ordered, totalCap, perNodeCap);
      Degree(chosen, e.source) == perNodeCap || Degree(chosen, e.target) == perNodeCap
  {
    var i :| 0 <= i < |ordered| && ordered[i] == e;
    LeftOutByEarlier(ordered, i, totalCap, perNodeCap);
    var before, chosen := Greedy(ordered[..i], totalCap, perNodeCap), Greedy(ordered, totalCap, perNodeCap);
    GreedyWithinCaps(ordered, totalCap, perNodeCap);
    DegreeGrows(before, chosen, e.source);
    DegreeGrows(before, chosen, e.target);
  }

  /* ---------------- at least half of any other selection ---------------- */

  /** How many ends of an edge lie in a set of devices. */
  function EndsIn(s: set<string>, e: Edge): nat {
    (if e.source in s then 1 else 0) + (if e.target in s && e.target != e.source then 1 else 0)
  }

  function EndsSum(s: set<string>, edges: seq<Edge>): nat {
    if edges == [] then 0 else EndsSum(s, edges[..|edges| - 1]) + EndsIn(s, edges[|edges| - 1])
  }

  lemma {:induction false} EndsAtMostTwo(s: set<string>, edges: seq<Edge>)
    ensures EndsSum(s, edges) <= 2 * |edges|
  {
    if edges != [] { EndsAtMostTwo(s, edges[..|edges| - 1]); }
  }

  lemma {:induction false} EndsAtLeastOne(s: set<string>, edges: seq<Edge>)
    requires forall e :: e in edges ==> e.source in s || e.target in s
    ensures EndsSum(s, edges) >= |edges|
  {
    if edges != [] {
      assert edges[|edges| - 1] in edges;
      EndsAtLeastOne(s, edges[..|edges| - 1]);
    }
  }

  lemma {:induction false} EndsByDevice(s: set<string>, v: string, edges: seq<Edge>)
    requires v !in s
    ensures EndsSum(s + {v}, edges) == EndsSum(s, edges) + Degree(edges, v)
  {
    if edges != [] {
      EndsByDevice(s, v, edges[..|edges| - 1]);
    }
  }

  /** Counting ends device by device preserves a bound that holds at every device. */
  lemma {:induction false} EndsCompared(s: set<string>, a: seq<Edge>, b: seq<Edge>)
    requires forall v :: v in s ==> Degree(a, v) <= Degree(b, v)
    ensures EndsSum(s, a) <= EndsSum(s, b)
    decreases s
  {
    if s == {} {
      NoEnds(a);
      NoEnds(b);
    } else {
      var v :| v in s;
      EndsCompared(s - {v}, a, b);
      EndsByDevice(s - {v}, v, a);
      EndsByDevice(s - {v}, v, b);
      assert s - {v} + {v} == s;
    }
  }

  lemma {:induction false} NoEnds(edges: seq<Edge>)
    ensures EndsSum({}, edges) == 0
  {
    if edges != [] { NoEnds(edges[..|edges| - 1]); }
  }

  function In(edges: seq<Edge>): Edge -> bool { (e: Edge) => e in edges }

  function NotIn(edges: seq<Edge>): Edge -> bool { (e: Edge) => e !in edges }

  lemma {:induction false} FilterSwap(p: Edge -> bool, q: Edge -> bool, edges: seq<Edge>)
    ensures Filter(p, Filter(q, edges)) == Filter(q, Filter(p, edges))
  {
    if edges != [] {
      var init, last := edges[..|edges| - 1], edges[|edges| - 1];
      FilterSwap(p, q, init);
      FilterAppend(p, Filter(q, init), last);
      FilterAppend(q, Filter(p, init), last);
    }
  }

  /** The degree of a selection splits over what it shares with another and what it does not. */
  lemma DegreeSplit(a: seq<Edge>, b: seq<Edge>, v: string)
    ensures Degree(a, v) == Degree(Filter(In(b), a), v) + Degree(Filter(NotIn(b), a), v)
  {
    FilterSwap(Touches(v), In(b), a);
    FilterSwap(Touches(v), NotIn(b), a);
    FilterSplit(In(b), NotIn(b), (e: Edge) => true, Filter(Touches(v), a));
    FilterAll((e: Edge) => true, Filter(Touches(v), a));
  }

  lemma SharedDegree(a: seq<Edge>, b: seq<Edge>, v: string)
    requires Distinct(a) && Distinct(b)
    ensures Degree(Filter(In(b), a), v) == Degree(Filter(In(a), b), v)
    ensures |Filter(In(b), a)| == |Filter(In(a), b)|
  {
    var p, q := Filter(In(b), a), Filter(In(a), b);
    FilterDistinct(In(b), a);
    FilterDistinct(In(a), b);
    FilterMembers(In(b), a);
    FilterMembers(In(a), b);
    DistinctPermuted(p, q);
    PermutedMembers(p, q);
    FilterPermuted(Touches(v), p, q);
  }

  /** Of two capped selections, the one no edge of the other could extend has at least half as many. */
  lemma HalfOfAny(chosen: seq<Edge>, other: seq<Edge>, perNodeCap: nat)
    requires Distinct(chosen) && Distinct(other)
    requires forall v :: Degree(other, v) <= perNodeCap
    requires forall e :: e in other && e !in chosen ==>
               Degree(chosen, e.source) >= perNodeCap || Degree(chosen, e.target) >= perNodeCap
    ensures |other| <= 2 * |chosen|
  {
    var extra, lost := Filter(NotIn(chosen), other), Filter(NotIn(other), chosen);
    FilterMembers(NotIn(chosen), other);
    var ends := (set e | e in extra :: e.source) + (set e | e in extra :: e.target);
    var full := set v | v in ends && Degree(chosen, v) >= perNodeCap;
    forall v | v in full ensures Degree(extra, v) <= Degree(lost, v) {
      DegreeSplit(other, chosen, v);
      DegreeSplit(chosen, other, v);
      SharedDegree(other, chosen, v);
    }
    EndsCompared(full, extra, lost);
    EndsAtLeastOne(full, extra);
    EndsAtMostTwo(full, lost);
    SharedDegree(other, chosen, "");
    SizeSplit(other, chosen);
    SizeSplit(chosen, other);
  }

  lemma SizeSplit(a: seq<Edge>, b: seq<Edge>)
    ensures |a| == |Filter(In(b), a)| + |Filter(NotIn(b), a)|
  {
    FilterSplit(In(b), NotIn(b), (e: Edge) => true, a);
    FilterAll((e: Edge) => true, a);
  }

  lemma DistinctFromIds(edges: seq<Edge>)
    requires UniqueIds(edges)
    ensures Distinct(edges)
  {
  }

  /** Below the total cap, no selection within the per-device cap alone is more than twice as large. */
  lemma GreedyAtLeastHalf(ordered: seq<Edge>, totalCap: nat, perNodeCap: nat, other: seq<Edge>)
    requires UniqueIds(ordered) && UniqueIds(other) && forall e :: e in other ==> e in ordered
    requires forall v :: Degree(other, v) <= perNodeCap
    ensures
      var chosen := Greedy(ordered, totalCap, perNodeCap);
      |chosen| < totalCap ==> |other| <= 2 * |chosen|
  {
    var chosen := Greedy(ordered, totalCap, perNodeCap);
    if |chosen| < totalCap {
      GreedyUnique(ordered, totalCap, perNodeCap);
      DistinctFromIds(chosen);
      DistinctFromIds(other);
      forall e | e in other && e !in chosen
        ensures Degree(chosen, e.source) >= perNodeCap || Degree(chosen, e.target) >= perNodeCap
      {
        Maximal(ordered, totalCap, perNodeCap, e);
      }
      HalfOfAny(chosen, other, perNodeCap);
    }
  }

  /** Whether or not the total cap is reached, nothing within both caps is more than twice as large. */
  lemma HalfWithinCaps(ordered: seq<Edge>, totalCap: nat, perNodeCap: nat, other: seq<Edge>)
    requires UniqueIds(ordered) && UniqueIds(other) && forall e :: e in other ==> e in ordered
    requires WithinCaps(other, totalCap, perNodeCap)
    ensures |other| <= 2 * |Greedy(ordered, totalCap, perNodeCap)|
  {
    GreedyAtLeastHalf(ordered, totalCap, perNodeCap, other);
  }

  /* ---------------- priority ---------------- */

  /** An order that puts everything satisfying `p` first. */
  ghost predicate First(p: Edge -> bool, ordered: seq<Edge>) {
    forall i, j :: 0 <= i < j < |ordered| && p(ordered[j]) ==> p(ordered[i])
  }

  /** A preferred edge is dropped only for caps that preferred edges fill. */
  lemma DroppedOnlyForPeers(p: Edge -> bool, ordered: seq<Edge>, totalCap: nat, perNodeCap: nat, e: Edge)
    requires First(p, ordered) && e in ordered && p(e) && e !in Greedy(ordered, totalCap, perNodeCap)
    ensures
      var peers := Filter(p, Greedy(ordered, totalCap, perNodeCap));
      |peers| >= totalCap || Degree(peers, e.source) >= perNodeCap || Degree(peers, e.target) >= perNodeCap
  {
    var i :| 0 <= i < |ordered| && ordered[i] == e;
    LeftOutByEarlier(ordered, i, totalCap, perNodeCap);
    var before, chosen := Greedy(ordered[..i], totalCap, perNodeCap), Greedy(ordered, totalCap, perNodeCap);
    forall x | x in before ensures p(x) {
      var k :| 0 <= k < i && ordered[k] == x;
    }
    FilterAll(p, before);
    FilterExtends(p, before, chosen);
    DegreeGrows(before, Filter(p, chosen), e.source);
    DegreeGrows(before, Filter(p, chosen), e.target);
  }

  lemma {:induction false} FilterExtends(p: Edge -> bool, a: seq<Edge>, b: seq<Edge>)
    requires a <= b && Filter(p, a) == a
    ensures a <= Filter(p, b)
  {
    if |a| < |b| {
      FilterExtends(p, a, b[..|b| - 1]);
    } else {
      assert a == b;
    }
  }

  /* ---------------- recent missing links ---------------- */

  function IsRecentMissing(): Edge -> bool {
    (e: Edge) => e.evidence.HistoricalNeighbor? || e.evidence.HistoricalRoute?
  }

  /** Whether an edge fills a gap: an issue device, a device without latest evidence, a limited layout. */
  function Relevant(issues: set<string>, covered: set<string>, layoutLimited: bool): Edge -> bool {
    (e: Edge) =>
      layoutLimited || e.source in issues || e.target in issues || e.source !in covered || e.target !in covered
  }

  function RecentLe(relevant: Edge -> bool, rank: string -> int): (Edge, Edge) -> bool {
    (a: Edge, b: Edge) =>
      if relevant(a) != relevant(b) then relevant(a)
      else if rank(a.lastSeen) != rank(b.lastSeen) then rank(a.lastSeen) > rank(b.lastSeen)
      else rank(a.id) <= rank(b.id)
  }

  /** The order recent-missing edges are considered in. */
  function RecentOrder(
    edges: seq<Edge>, issues: set<string>, covered: set<string>, layoutLimited: bool, rank: string -> int): seq<Edge>
  {
    SortBy(RecentLe(Relevant(issues, covered, layoutLimited), rank), Filter(IsRecentMissing(), edges))
  }

  method SelectRecentMissing(
    edges: seq<Edge>, issues: set<string>, covered: set<string>, layoutLimited: bool, rank: string -> int,
    totalCap: nat := MAX_RECENT_MISSING_LINKS_TOTAL, perNodeCap: nat := MAX_RECENT_MISSING_LINKS_PER_NODE)
    returns (chosen: set<string>)
    requires UniqueIds(edges)
    ensures chosen == Ids(Greedy(RecentOrder(edges, issues, covered, layoutLimited, rank), totalCap, perNodeCap))
  {
    hide UniqueIds;
    OrderUnique(RecentLe(Relevant(issues, covered, layoutLimited), rank), IsRecentMissing(), edges);
    var ordered := RecentOrder(edges, issues, covered, layoutLimited, rank);
    chosen := TakeCapped(ordered, totalCap, perNodeCap);
  }

  lemma OrderUnique(le: (Edge, Edge) -> bool, p: Edge -> bool, edges: seq<Edge>)
    requires UniqueIds(edges)
    ensures UniqueIds(SortBy(le, Filter(p, edges)))
  {
    var kept := Filter(p, edges);
    DistinctFromIds(edges);
    FilterDistinct(p, edges);
    FilterMembers(p, edges);
    PermutedDistinct(kept, SortBy(le, kept));
    var ordered := SortBy(le, kept);
    forall i, j | 0 <= i < j < |ordered| ensures ordered[i].id != ordered[j].id {
      assert ordered[i] in edges && ordered[j] in edges && ordered[i] != ordered[j];
    }
  }

  lemma RecentLePreorder(relevant: Edge -> bool, rank: string -> int)
    ensures Preorder(RecentLe(relevant, rank))
  {
  }

  /** A relevant recent-missing edge is dropped only because relevant ones fill the caps. */
  lemma RelevantDroppedOnlyForRelevant(
    edges: seq<Edge>, issues: set<string>, covered: set<string>, layoutLimited: bool, rank: string -> int,
    totalCap: nat, perNodeCap: nat, e: Edge)
    requires e in edges && IsRecentMissing()(e) && Relevant(issues, covered, layoutLimited)(e)
    requires
      e !in Greedy(RecentOrder(edges, issues, covered, layoutLimited, rank), totalCap, perNodeCap)
    ensures
      var relevant := Relevant(issues, covered, layoutLimited);
      var peers := Filter(relevant, Greedy(RecentOrder(edges, issues, covered, layoutLimited, rank),
                                           totalCap, perNodeCap));
      |peers| >= totalCap || Degree(peers, e.source) >= perNodeCap || Degree(peers, e.target) >= perNodeCap
  {
    var relevant := Relevant(issues, covered, layoutLimited);
    var kept := Filter(IsRecentMissing(), edges);
    var ordered := RecentOrder(edges, issues, covered, layoutLimited, rank);
    RecentLePreorder(relevant, rank);
    SortBySorted(RecentLe(relevant, rank), kept);
    FilterMembers(IsRecentMissing(), edges);
    assert First(relevant, ordered) by {
      forall i, j | 0 <= i < j < |ordered| && relevant(ordered[j]) ensures relevant(ordered[i]) {
        assert RecentLe(relevant, rank)(ordered[i], ordered[j]);
      }
    }
    DroppedOnlyForPeers(relevant, ordered, totalCap, perNodeCap, e);
  }

  /* ---------------- passive hints ---------------- */

  function IsPassive(): Edge -> bool { (e: Edge) => e.evidence.PassiveAssociation? }

  function ConfidenceRank(c: Confidence): nat { match c case High => 2 case Medium => 1 case Low => 0 }

  function TouchesSelected(selected: Option<string>): Edge -> bool {
    (e: Edge) => selected.Some? && (e.source == selected.value || e.target == selected.value)
  }

  function TouchesIssue(issues: set<string>): Edge -> bool {
    (e: Edge) => e.issueRelated || e.source in issues || e.target in issues
  }

  function HintLe(selected: Edge -> bool, issue: Edge -> bool, rank: string -> int): (Edge, Edge) -> bool {
    (a: Edge, b: Edge) =>
      if selected(a) != selected(b) then selected(a)
      else if issue(a) != issue(b) then issue(a)
      else if a.confidence != b.confidence then ConfidenceRank(a.confidence) > ConfidenceRank(b.confidence)
      else if rank(a.lastSeen) != rank(b.lastSeen) then rank(a.lastSeen) > rank(b.lastSeen)
      else rank(a.id) <= rank(b.id)
  }

  function HintOrder(edges: seq<Edge>, issues: set<string>, selected: Option<string>, rank: string -> int): seq<Edge> {
    SortBy(HintLe(TouchesSelected(selected), TouchesIssue(issues), rank), Filter(IsPassive(), edges))
  }

  method SelectPassiveHints(
    edges: seq<Edge>, issues: set<string>, selected: Option<string>, rank: string -> int,
    totalCap: nat := MAX_PASSIVE_HINTS_TOTAL, perNodeCap: nat := MAX_PASSIVE_HINTS_PER_NODE)
    returns (chosen: set<string>)
    requires UniqueIds(edges)
    ensures chosen == Ids(Greedy(HintOrder(edges, issues, selected, rank), totalCap, perNodeCap))
  {
    hide UniqueIds;
    OrderUnique(HintLe(TouchesSelected(selected), TouchesIssue(issues), rank), IsPassive(), edges);
    var ordered := HintOrder(edges, issues, selected, rank);
    chosen := TakeCapped(ordered, totalCap, perNodeCap);
  }

  lemma HintLePreorder(selected: Edge -> bool, issue: Edge -> bool, rank: string -> int)
    ensures Preorder(HintLe(selected, issue, rank))
  {
  }

  /** A hint of the selected device is dropped only because hints of that device fill the caps. */
  lemma SelectedDroppedOnlyForSelected(
    edges: seq<Edge>, issues: set<string>, selected: Option<string>, rank: string -> int,
    totalCap: nat, perNodeCap: nat, e: Edge)
    requires e in edges && IsPassive()(e) && TouchesSelected(selected)(e)
    requires e !in Greedy(HintOrder(edges, issues, selected, rank), totalCap, perNodeCap)
    ensures
      var peers := Filter(TouchesSelected(selected),
                          Greedy(HintOrder(edges, issues, selected, rank), totalCap, perNodeCap));
      |peers| >= totalCap || Degree(peers, e.source) >= perNodeCap || Degree(peers, e.target) >= perNodeCap
  {
    var p, q := TouchesSelected(selected), TouchesIssue(issues);
    var kept := Filter(IsPassive(), edges);
    var ordered := HintOrder(edges, issues, selected, rank);
    HintLePreorder(p, q, rank);
    SortBySorted(HintLe(p, q, rank), kept);
    FilterMembers(IsPassive(), edges);
    assert First(p, ordered) by {
      forall i, j | 0 <= i < j < |ordered| && p(ordered[j]) ensures p(ordered[i]) {
        assert HintLe(p, q, rank)(ordered[i], ordered[j]);
      }
    }
    DroppedOnlyForPeers(p, ordered, totalCap, perNodeCap, e);
  }

  /* ---------------- what an edge left out lost to ---------------- */

  /** Chosen edges, none of them after `e`, that leave no room for it. */
  ghost predicate Crowded(
    before: (Edge, Edge) -> bool, chosen: seq<Edge>, totalCap: nat, perNodeCap: nat, e: Edge, peers: seq<Edge>)
  {
    && peers <= chosen && (forall f :: f in peers ==> before(f, e))
    && (|peers| == totalCap || Degree(peers, e.source) == perNodeCap || Degree(peers, e.target) == perNodeCap)
  }

  lemma LeftOutIsCrowded(le: (Edge, Edge) -> bool, kept: seq<Edge>, totalCap: nat, perNodeCap: nat, e: Edge)
    requires Preorder(le) && e in kept && e !in Greedy(SortBy(le, kept), totalCap, perNodeCap)
    ensures exists peers :: Crowded(le, Greedy(SortBy(le, kept), totalCap, perNodeCap), totalCap, perNodeCap, e, peers)
  {
    hide Degree, Greedy, SortBy, Preorder;
    var ordered := SortBy(le, kept);
    SortBySorted(le, kept);
    var i :| 0 <= i < |ordered| && ordered[i] == e;
    LeftOutByEarlier(ordered, i, totalCap, perNodeCap);
    var peers := Greedy(ordered[..i], totalCap, perNodeCap);
    forall f | f in peers ensures le(f, e) {
      var j :| 0 <= j < i && ordered[j] == f;
    }
    assert Crowded(le, Greedy(ordered, totalCap, perNodeCap), totalCap, perNodeCap, e, peers);
  }

  /** Relevant if the other is and, if they agree, seen at least as recently, by id among those seen alike. */
  function NoOlder(relevant: Edge -> bool, rank: string -> int): (Edge, Edge) -> bool {
    (f: Edge, e: Edge) =>
      && (relevant(e) ==> relevant(f))
      && (relevant(e) == relevant(f) ==>
            && rank(f.lastSeen) >= rank(e.lastSeen)
            && (rank(f.lastSeen) == rank(e.lastSeen) ==> rank(f.id) <= rank(e.id)))
  }

  /** A recent-missing edge is left out only for chosen ones of its kind that are no older, or of a kind that goes first. */
  lemma LeftOutIsOlder(
    edges: seq<Edge>, issues: set<string>, covered: set<string>, layoutLimited: bool, rank: string -> int,
    totalCap: nat, perNodeCap: nat, e: Edge)
    requires e in edges && IsRecentMissing()(e)
    requires e !in Greedy(RecentOrder(edges, issues, covered, layoutLimited, rank), totalCap, perNodeCap)
    ensures
      var chosen := Greedy(RecentOrder(edges, issues, covered, layoutLimited, rank), totalCap, perNodeCap);
      exists peers ::
        Crowded(NoOlder(Relevant(issues, covered, layoutLimited), rank), chosen, totalCap, perNodeCap, e, peers)
  {
    hide Degree, Greedy, SortBy;
    var relevant := Relevant(issues, covered, layoutLimited);
    RecentLePreorder(relevant, rank);
    FilterMembers(IsRecentMissing(), edges);
    hide Preorder, Relevant;
    LeftOutIsCrowded(RecentLe(relevant, rank), Filter(IsRecentMissing(), edges), totalCap, perNodeCap, e);
    var chosen := Greedy(RecentOrder(edges, issues, covered, layoutLimited, rank), totalCap, perNodeCap);
    var peers :| Crowded(RecentLe(relevant, rank), chosen, totalCap, perNodeCap, e, peers);
    assert Crowded(NoOlder(relevant, rank), chosen, totalCap, perNodeCap, e, peers);
  }

  predicate AtLeastAsSure(f: Confidence, e: Confidence) { (e == High ==> f == High) && (e == Medium ==> f != Low) }

  /** At the selected device, then with an issue, then at least as sure, then at least as recent, each among those that agree so far. */
  function NoWeaker(selected: Edge -> bool, issue: Edge -> bool, rank: string -> int): (Edge, Edge) -> bool {
    (f: Edge, e: Edge) =>
      && (selected(e) ==> selected(f))
      && (selected(e) == selected(f) ==>
            && (issue(e) ==> issue(f))
            && (issue(e) == issue(f) ==>
                  && AtLeastAsSure(f.confidence, e.confidence)
                  && (f.confidence == e.confidence ==>
                        && rank(f.lastSeen) >= rank(e.lastSeen)
                        && (rank(f.lastSeen) == rank(e.lastSeen) ==> rank(f.id) <= rank(e.id)))))
  }

  /** A passive hint is left out only for chosen ones that are no weaker. */
  lemma LeftOutIsWeaker(
    edges: seq<Edge>, issues: set<string>, selected: Option<string>, rank: string -> int,
    totalCap: nat, perNodeCap: nat, e: Edge)
    requires e in edges && IsPassive()(e)
    requires e !in Greedy(HintOrder(edges, issues, selected, rank), totalCap, perNodeCap)
    ensures
      var chosen := Greedy(HintOrder(edges, issues, selected, rank), totalCap, perNodeCap);
      exists peers ::
        Crowded(NoWeaker(TouchesSelected(selected), TouchesIssue(issues), rank), chosen, totalCap, perNodeCap, e, peers)
  {
    hide Degree, Greedy, SortBy;
    var p, q := TouchesSelected(selected), TouchesIssue(issues);
    HintLePreorder(p, q, rank);
    FilterMembers(IsPassive(), edges);
    hide Preorder, TouchesSelected, TouchesIssue;
    LeftOutIsCrowded(HintLe(p, q, rank), Filter(IsPassive(), edges), totalCap, perNodeCap, e);
    var chosen := Greedy(HintOrder(edges, issues, selected, rank), totalCap, perNodeCap);
    var peers :| Crowded(HintLe(p, q, rank), chosen, totalCap, perNodeCap, e, peers);
    assert Crowded(NoWeaker(p, q, rank), chosen, totalCap, perNodeCap, e, peers);
  }
}
