/**
 What the best neighbour links are best at, from the edges alone: a link left out has
 enough stronger ones at both of its ends, and a link chosen is among the strongest
 of one of its ends. And what is drawn can be told from the controls.
 */
module MeshStrongest {
  import opened Basics
  import opened Sequences
  import opened MeshTypes
  import opened MeshSelection

  /** A recorded LQI, and a higher one or the other not recorded. */
  predicate Outdoes(f: Edge, e: Edge) { f.lqi.Some? && (e.lqi.None? || f.lqi.value > e.lqi.value) }

  /** Not weaker, and first by id among equals. */
  predicate Precedes(rank: string -> int, f: Edge, e: Edge) {
    Outdoes(f, e) || (f.lqi == e.lqi && rank(f.id) <= rank(e.id))
  }

  ghost predicate DifferentIds(edges: seq<Edge>) { forall i, j :: 0 <= i < j < |edges| ==> edges[i].id != edges[j].id }

  ghost predicate DifferentEnds(edges: seq<Edge>) { forall e :: e in edges ==> e.source != e.target }

  /** A link that may be chosen for the device. */
  predicate Candidate(exclude: set<string>, v: string, e: Edge) { Eligible(exclude)(e) && Touches(v)(e) }

  lemma OnceEither(v: string, e: Edge)
    requires e.source != e.target
    ensures
      var more := Once(e, v, e.source) + Once(e, v, e.target);
      more == [] || more == [e]
  {
    assert [] + [e] == [e] && [e] + [] == [e];
  }

  lemma LastIsNew(edges: seq<Edge>)
    requires edges != [] && Distinct(edges)
    ensures Distinct(edges[..|edges| - 1]) && edges[|edges| - 1] !in edges[..|edges| - 1]
  {
  }

  lemma {:induction false} FiledOnce(v: string, edges: seq<Edge>)
    requires Distinct(edges) && DifferentEnds(edges)
    ensures Distinct(FiledUnder(v, edges))
  {
    hide FiledUnder, Distinct, Once;
    if edges == [] {
      UnfiledElsewhere(v, edges);
      assert Distinct(FiledUnder(v, edges)) by { NothingTwice(FiledUnder(v, edges)); }
    } else {
      var init, last := edges[..|edges| - 1], edges[|edges| - 1];
      assert edges == init + [last] && last in edges;
      assert forall e :: e in init ==> e in edges;
      LastIsNew(edges);
      FiledOnce(v, init);
      UnfiledElsewhere(v, init);
      FiledAppend(v, init, last);
      OnceEither(v, last);
      var more := Once(last, v, last.source) + Once(last, v, last.target);
      OneLonger(FiledUnder(v, init), last, more);
      assert FiledUnder(v, edges) == FiledUnder(v, init) + more;
    }
  }

  lemma NothingTwice(s: seq<Edge>)
    requires s == []
    ensures Distinct(s)
  {
  }

  lemma OneLonger(s: seq<Edge>, e: Edge, more: seq<Edge>)
    requires Distinct(s) && e !in s && (more == [] || more == [e])
    ensures Distinct(s + more)
  {
  }

  /** The links of a device in the order they are considered: each once, none before one that precedes it. */
  lemma Ranking(rank: string -> int, edges: seq<Edge>, exclude: set<string>, v: string) returns (sorted: seq<Edge>)
    requires DifferentIds(edges) && DifferentEnds(edges)
    ensures Distinct(sorted)
    ensures forall e :: e in sorted <==> e in edges && Candidate(exclude, v, e)
    ensures forall i, j :: 0 <= i < j < |sorted| ==> Precedes(rank, sorted[i], sorted[j])
    ensures forall n: nat :: Strongest(rank, v, Filter(Eligible(exclude), edges), n) == sorted[..Min(n, |sorted|)]
  {
    hide FiledUnder;
    var eligible := Filter(Eligible(exclude), edges);
    FilterMembers(Eligible(exclude), edges);
    FilterDistinct(Eligible(exclude), edges);
    FiledOnce(v, eligible);
    UnfiledElsewhere(v, eligible);
    sorted := SortBy(StrongerLe(rank), FiledUnder(v, eligible));
    PermutedDistinct(FiledUnder(v, eligible), sorted);
    StrongerLePreorder(rank);
    SortBySorted(StrongerLe(rank), FiledUnder(v, eligible));
    forall i, j | 0 <= i < j < |sorted| ensures Precedes(rank, sorted[i], sorted[j]) {
      assert StrongerLe(rank)(sorted[i], sorted[j]);
    }
  }

  lemma ChosenAt(rank: string -> int, edges: seq<Edge>, n: nat, exclude: set<string>, v: string, f: Edge)
    requires f in Strongest(rank, v, Filter(Eligible(exclude), edges), n)
    ensures f.id in Best(rank, edges, n, exclude)
  {
    hide FiledUnder, SortBy;
    var eligible := Filter(Eligible(exclude), edges);
    var sorted := SortBy(StrongerLe(rank), FiledUnder(v, eligible));
    assert f in sorted;
    UnfiledElsewhere(v, eligible);
  }

  /** These links are chosen, of this device, and precede the one left out. */
  ghost predicate Beaten(
    rank: string -> int, edges: seq<Edge>, n: nat, exclude: set<string>, v: string, e: Edge, chosen: seq<Edge>)
  {
    && |chosen| == n && Distinct(chosen)
    && forall f :: f in chosen ==>
         f in edges && Candidate(exclude, v, f) && f.id in Best(rank, edges, n, exclude) && Precedes(rank, f, e)
  }

  /** A link is left out only for as many chosen ones as are allowed at each of its ends, none of them weaker. */
  lemma LeftOutIsBeaten(rank: string -> int, edges: seq<Edge>, n: nat, exclude: set<string>, v: string, e: Edge)
    requires DifferentIds(edges) && DifferentEnds(edges)
    requires e in edges && Candidate(exclude, v, e) && e.id !in Best(rank, edges, n, exclude)
    ensures exists chosen :: Beaten(rank, edges, n, exclude, v, e, chosen)
  {
    hide Strongest, Best;
    var sorted := Ranking(rank, edges, exclude, v);
    assert e in sorted;
    var at :| 0 <= at < |sorted| && sorted[at] == e;
    if at < n {
      assert sorted[..Min(n, |sorted|)][at] == e;
      ChosenAt(rank, edges, n, exclude, v, e);
    }
    var chosen := sorted[..n];
    forall f | f in chosen
      ensures f in edges && Candidate(exclude, v, f) && f.id in Best(rank, edges, n, exclude) && Precedes(rank, f, e)
    {
      var i :| 0 <= i < n && chosen[i] == f;
      assert sorted[i] == f && f in sorted;
      ChosenAt(rank, edges, n, exclude, v, f);
    }
    assert Beaten(rank, edges, n, exclude, v, e, chosen);
  }

  /** With any allowance every device keeps one of its strongest links. */
  lemma StrongestIsKept(rank: string -> int, edges: seq<Edge>, n: nat, exclude: set<string>, v: string, e: Edge)
    requires DifferentIds(edges) && DifferentEnds(edges) && n >= 1 && e in edges && Candidate(exclude, v, e)
    ensures exists f :: f in edges && Candidate(exclude, v, f) && f.id in Best(rank, edges, n, exclude) && !Outdoes(e, f)
  {
    hide Best;
    if e.id !in Best(rank, edges, n, exclude) {
      LeftOutIsBeaten(rank, edges, n, exclude, v, e);
      var chosen :| Beaten(rank, edges, n, exclude, v, e, chosen);
      assert chosen[0] in chosen;
      NotBoth(rank, chosen[0], e);
    }
  }

  lemma NotBoth(rank: string -> int, f: Edge, e: Edge)
    ensures Precedes(rank, f, e) ==> !Outdoes(e, f)
  {
  }

  lemma {:induction false} InPrefix(s: seq<Edge>, n: nat, t: set<Edge>)
    requires n <= |s| && Distinct(s) && t <= set e | e in s[..n]
    ensures |t| <= n
  {
    if n == 0 {
      assert t == {};
    } else {
      assert s[..n] == s[..n - 1] + [s[n - 1]];
      InPrefix(s, n - 1, t - {s[n - 1]});
      SubsetSize(t, (t - {s[n - 1]}) + {s[n - 1]});
    }
  }

  /** Links of the device that outdo this one. */
  ghost function Stronger(edges: seq<Edge>, exclude: set<string>, v: string, e: Edge): set<Edge> {
    set f | f in edges && Candidate(exclude, v, f) && Outdoes(f, e)
  }

  /** A chosen link has, at one of its ends, fewer stronger links than are allowed. */
  lemma ChosenIsStrong(rank: string -> int, edges: seq<Edge>, n: nat, exclude: set<string>, id: string)
    requires DifferentIds(edges) && DifferentEnds(edges) && id in Best(rank, edges, n, exclude)
    ensures exists e, v :: e in edges && e.id == id && Candidate(exclude, v, e) && |Stronger(edges, exclude, v, e)| < n
  {
    hide Strongest;
    var eligible := Filter(Eligible(exclude), edges);
    var v, e :| v in Endpoints(eligible) && e in Strongest(rank, v, eligible, n) && e.id == id;
    var sorted := Ranking(rank, edges, exclude, v);
    var top := sorted[..Min(n, |sorted|)];
    assert e in top;
    var at :| 0 <= at < |top| && top[at] == e;
    assert sorted[at] == e && e in sorted;
    forall f | f in Stronger(edges, exclude, v, e) ensures f in sorted[..at] {
      assert f in sorted;
      var i :| 0 <= i < |sorted| && sorted[i] == f;
      if i > at { NotBoth(rank, e, f); }
    }
    InPrefix(sorted, at, Stronger(edges, exclude, v, e));
  }

  /* ---------------- what is drawn ---------------- */

  /** The edge of no selected device, and of no issue, so that the controls alone decide. */
  predicate Ordinary(context: Context, e: Edge) {
    e.source !in FocusNodes(context) && e.target !in FocusNodes(context) && !e.issueRelated
  }

  /** Whatever is hidden is drawn once one of its devices is selected, with everything else of that device. */
  lemma SelectionReveals(edges: seq<Edge>, controls: Controls, context: Context, e: Edge)
    requires e in edges && context.selectedNode.Some? && context.selectedNode.value != ""
    requires Touches(context.selectedNode.value)(e)
    ensures e in VisibleEdges(edges, controls, context)
  {
    FilterMembers(Drawn(edges, controls, context), edges);
  }

  /** While route hints stand for their pairs, no ordinary neighbour line is drawn beside a drawn route. */
  lemma OneLinePerPair(edges: seq<Edge>, controls: Controls, context: Context, e: Edge, r: Edge)
    requires controls.routeHints && !controls.allNeighbourLinks
    requires e in VisibleEdges(edges, controls, context) && Ordinary(context, e) && e.evidence.LatestNeighbor?
    requires r in edges && r.evidence.LatestRoute?
    ensures r in VisibleEdges(edges, controls, context) && PairKey(e.source, e.target) != PairKey(r.source, r.target)
  {
    FilterMembers(Drawn(edges, controls, context), edges);
  }

  /** With everything off, only what is selected or marked as an issue is drawn. */
  lemma AllOff(edges: seq<Edge>, context: Context, e: Edge)
    requires e in edges
    ensures e in VisibleEdges(edges, Controls(false, false, false, false, false, false, false), context) <==>
              !Ordinary(context, e)
  {
    FilterMembers(Drawn(edges, Controls(false, false, false, false, false, false, false), context), edges);
  }

  /** Switching any control on hides nothing, except that route hints replace the neighbour lines of their pairs. */
  lemma MoreControlsDrawMore(edges: seq<Edge>, c: Controls, d: Controls, context: Context, e: Edge)
    requires (c.routeHints ==> d.routeHints) && (c.bestNeighbourLinks ==> d.bestNeighbourLinks)
    requires (c.allNeighbourLinks ==> d.allNeighbourLinks) && (c.oldUncertainLinks ==> d.oldUncertainLinks)
    requires (c.recentMissingLinks ==> d.recentMissingLinks) && (c.lastKnownLinks ==> d.lastKnownLinks)
    requires c.suggestedInvestigationLinks ==> d.suggestedInvestigationLinks
    requires e in VisibleEdges(edges, c, context)
    ensures
      || e in VisibleEdges(edges, d, context)
      || (e.evidence.LatestNeighbor? && d.routeHints && !c.routeHints &&
          exists r :: r in VisibleEdges(edges, d, context) && r.evidence.LatestRoute? &&
                      PairKey(r.source, r.target) == PairKey(e.source, e.target))
  {
    FilterMembers(Drawn(edges, c, context), edges);
    FilterMembers(Drawn(edges, d, context), edges);
    if e !in VisibleEdges(edges, d, context) {
      assert PairKey(e.source, e.target) in RouteCovered(edges);
      var r :| r in edges && r.evidence.LatestRoute? && PairKey(r.source, r.target) == PairKey(e.source, e.target);
    }
  }
}
