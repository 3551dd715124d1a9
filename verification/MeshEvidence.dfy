/**
 From stored links to the evidence graph: neighbour entries of one pair collapse
 into one edge, and every edge endpoint becomes a device. `normalize` stands for
 the address normalization.
 */
module MeshEvidence {
  import opened Basics
  import opened Sequences
  import opened MeshTypes
  import opened MeshSelection

  datatype Link = Link(source: string, target: string, lqi: Option<int>, routeCount: Option<int>)

  type Normalize = string -> string

  /** Both ends are known and different. */
  predicate Usable(normalize: Normalize, l: Link) {
    normalize(l.source) != "" && normalize(l.target) != "" && normalize(l.source) != normalize(l.target)
  }

  function KeyOf(normalize: Normalize, l: Link): string { PairKey(normalize(l.source), normalize(l.target)) }

  function OfPair(normalize: Normalize, key: string): Link -> bool {
    (l: Link) => Usable(normalize, l) && KeyOf(normalize, l) == key
  }

  /** The entries of one pair, in the order they are stored. */
  function Entries(normalize: Normalize, key: string, links: seq<Link>): seq<Link> { Filter(OfPair(normalize, key), links) }

  /** The entry shown for a pair: the first one with a recorded LQI, or else the first. */
  function Shown(entries: seq<Link>): Link
    requires entries != []
  {
    if |entries| == 1 then entries[0]
    else
      var before, last := Shown(entries[..|entries| - 1]), entries[|entries| - 1];
      if before.lqi.None? && last.lqi.Some? then last else before
  }

  lemma {:induction false} ShownMeaning(entries: seq<Link>)
    requires entries != []
    ensures Shown(entries) in entries
    ensures (exists l :: l in entries && l.lqi.Some?) <==> Shown(entries).lqi.Some?
    ensures Shown(entries).lqi.None? ==> Shown(entries) == entries[0]
  {
    if |entries| > 1 {
      var init, last := entries[..|entries| - 1], entries[|entries| - 1];
      assert entries == init + [last];
      ShownMeaning(init);
    } else {
      assert entries[0] in entries;
    }
  }

  /** Position `i` is the first with a recorded LQI. */
  predicate FirstRecorded(entries: seq<Link>, i: nat) {
    i < |entries| && entries[i].lqi.Some? && forall j :: 0 <= j < i ==> entries[j].lqi.None?
  }

  lemma {:induction false} ShownIsFirst(entries: seq<Link>, i: nat)
    requires FirstRecorded(entries, i)
    ensures Shown(entries) == entries[i]
  {
    var init := entries[..|entries| - 1];
    if i < |init| {
      ShownIsFirst(init, i);
    } else if init != [] {
      ShownMeaning(init);
      assert forall l :: l in init ==> l.lqi.None?;
    }
  }

  /** A pair's edge has the LQI of its first entry that recorded one, and none if none did. */
  lemma EdgeShowsFirst(normalize: Normalize, key: string, links: seq<Link>, capturedAt: string)
    requires Entries(normalize, key, links) != []
    ensures
      var e, entries := NeighbourEdge(normalize, key, links, capturedAt), Entries(normalize, key, links);
      && (forall i: nat :: FirstRecorded(entries, i) ==> e.lqi == entries[i].lqi)
      && ((forall l :: l in entries ==> l.lqi.None?) ==> e.lqi.None?)
      && e.evidence == LatestNeighbor && e.lastSeen == capturedAt
  {
    hide Entries, Shown;
    var entries := Entries(normalize, key, links);
    ShownMeaning(entries);
    forall i: nat | FirstRecorded(entries, i) ensures Shown(entries) == entries[i] { ShownIsFirst(entries, i); }
  }

  datatype Pair = Pair(link: Link, repeated: bool)

  /** The table of pairs: who is shown, and whether the pair was reported more than once. */
  ghost predicate Collapsed(normalize: Normalize, links: seq<Link>, pairs: map<string, Pair>) {
    forall key ::
      var entries := Entries(normalize, key, links);
      && (key in pairs <==> entries != [])
      && (key in pairs ==> pairs[key] == Pair(Shown(entries), |entries| > 1))
  }

  function Offer(pairs: map<string, Pair>, key: string, l: Link): map<string, Pair> {
    if key in pairs then
      pairs[key := Pair(if pairs[key].link.lqi.None? && l.lqi.Some? then l else pairs[key].link, true)]
    else pairs[key := Pair(l, false)]
  }

  lemma OfferKeeps(normalize: Normalize, links: seq<Link>, pairs: map<string, Pair>, l: Link)
    requires Collapsed(normalize, links, pairs)
    ensures Collapsed(normalize, links + [l], if Usable(normalize, l) then Offer(pairs, KeyOf(normalize, l), l) else pairs)
  {
    hide PairKey, KeyOf, Usable;
    forall key ensures
        Entries(normalize, key, links + [l]) ==
        Entries(normalize, key, links) + (if Usable(normalize, l) && KeyOf(normalize, l) == key then [l] else []) {
      FilterAppend(OfPair(normalize, key), links, l);
    }
    hide Entries;
    if Usable(normalize, l) {
      var entries := Entries(normalize, KeyOf(normalize, l), links);
      assert (entries + [l])[..|entries|] == entries;
    }
  }

  lemma NothingCollapsed(normalize: Normalize)
    ensures Collapsed(normalize, [], map[])
  {
  }

  /** The keys of usable links, in order of first appearance. */
  function PairKeys(normalize: Normalize, links: seq<Link>): seq<string> {
    if links == [] then []
    else
      var before, l := PairKeys(normalize, links[..|links| - 1]), links[|links| - 1];
      if Usable(normalize, l) && KeyOf(normalize, l) !in before then before + [KeyOf(normalize, l)] else before
  }

  lemma {:induction false} PairKeysMeaning(normalize: Normalize, links: seq<Link>)
    ensures Distinct(PairKeys(normalize, links))
    ensures forall key :: key in PairKeys(normalize, links) <==> Entries(normalize, key, links) != []
  {
    hide PairKey, KeyOf, Usable;
    if links != [] {
      var init, l := links[..|links| - 1], links[|links| - 1];
      assert links == init + [l];
      PairKeysMeaning(normalize, init);
      forall key ensures
          Entries(normalize, key, links) ==
          Entries(normalize, key, init) + (if Usable(normalize, l) && KeyOf(normalize, l) == key then [l] else []) {
        FilterAppend(OfPair(normalize, key), init, l);
      }
      hide Entries;
    }
  }

  method CollapseNeighbours(normalize: Normalize, links: seq<Link>) returns (pairs: map<string, Pair>, order: seq<string>)
    ensures Collapsed(normalize, links, pairs) && order == PairKeys(normalize, links)
  {
    hide PairKey, Collapsed, Usable, KeyOf;
    pairs, order := map[], [];
    NothingCollapsed(normalize);
    for i := 0 to |links|
      invariant Collapsed(normalize, links[..i], pairs) && order == PairKeys(normalize, links[..i])
    {
      var link := links[i];
      assert links[..i + 1] == links[..i] + [link] && links[..i + 1][..i] == links[..i];
      OfferKeeps(normalize, links[..i], pairs, link);
      if !Usable(normalize, link) { continue; }
      var key := KeyOf(normalize, link);
      if key !in order { order := order + [key]; }
      pairs := Offer(pairs, key, link);
    }
    assert links[..|links|] == links;
  }

  /** The neighbour edge of one pair. */
  function NeighbourEdge(normalize: Normalize, key: string, links: seq<Link>, capturedAt: string): Edge
    requires Entries(normalize, key, links) != []
  {
    var l := Shown(Entries(normalize, key, links));
    Edge("live-neighbor-" + key, normalize(l.source), normalize(l.target), LatestNeighbor, High, false, l.lqi, capturedAt)
  }

  function NeighbourEdges(normalize: Normalize, keys: seq<string>, links: seq<Link>, capturedAt: string): (r: seq<Edge>)
    requires forall key :: key in keys ==> Entries(normalize, key, links) != []
    ensures |r| == |keys|
    ensures forall i :: 0 <= i < |keys| ==> r[i] == NeighbourEdge(normalize, keys[i], links, capturedAt)
  {
    seq(|keys|, i requires 0 <= i < |keys| => NeighbourEdge(normalize, keys[i], links, capturedAt))
  }

  function Routed(normalize: Normalize): Link -> bool {
    (l: Link) => l.routeCount.Some? && l.routeCount.value > 0 && Usable(normalize, l)
  }

  function RouteEdge(normalize: Normalize, capturedAt: string): Link -> Edge {
    (l: Link) =>
      var s, t := normalize(l.source), normalize(l.target);
      Edge("live-route-" + s + "-" + t, s, t, LatestRoute, Medium, false, None, capturedAt)
  }

  /** The live edges: one per neighbour pair, one per route entry, then `others` as stored. */
  method BuildEdges(normalize: Normalize, links: seq<Link>, capturedAt: string, others: seq<Edge>) returns (edges: seq<Edge>)
    ensures forall key :: key in PairKeys(normalize, links) ==> Entries(normalize, key, links) != []
    ensures edges == NeighbourEdges(normalize, PairKeys(normalize, links), links, capturedAt) +
                     Map(RouteEdge(normalize, capturedAt), Filter(Routed(normalize), links)) + others
  {
    hide PairKey, PairKeys, Usable, Entries, Shown;
    var pairs, order := CollapseNeighbours(normalize, links);
    PairKeysMeaning(normalize, links);
    edges := [];
    for i := 0 to |order|
      invariant edges == NeighbourEdges(normalize, order[..i], links, capturedAt)
    {
      var key := order[i];
      assert key in order;
      var l := pairs[key].link;
      edges := edges +
        [Edge("live-neighbor-" + key, normalize(l.source), normalize(l.target), LatestNeighbor, High, false, l.lqi, capturedAt)];
    }
    assert order[..|order|] == order;
    ghost var neighbours := edges;
    for i := 0 to |links|
      invariant edges == neighbours + Map(RouteEdge(normalize, capturedAt), Filter(Routed(normalize), links[..i]))
    {
      assert links[..i + 1] == links[..i] + [links[i]];
      FilterAppend(Routed(normalize), links[..i], links[i]);
      if links[i].routeCount.None? || links[i].routeCount.value <= 0 { continue; }
      if !Usable(normalize, links[i]) { continue; }
      edges := edges + [RouteEdge(normalize, capturedAt)(links[i])];
    }
    assert links[..|links|] == links;
    edges := edges + others;
  }

  /**
   Each reported pair of different devices has exactly one neighbour edge, between
   those two devices, with an LQI whenever any of its entries recorded one.
   */
  lemma OneEdgePerPair(normalize: Normalize, links: seq<Link>, capturedAt: string, l: Link)
    requires l in links && Usable(normalize, l)
    requires forall x :: x in links ==> '|' !in normalize(x.source) && '|' !in normalize(x.target)
    ensures
      var keys := PairKeys(normalize, links);
      && (forall key :: key in keys ==> Entries(normalize, key, links) != [])
      && exists i :: 0 <= i < |keys| &&
           var edges := NeighbourEdges(normalize, keys, links, capturedAt);
           && Joins(edges[i], normalize(l.source), normalize(l.target))
           && (l.lqi.Some? ==> edges[i].lqi.Some?)
           && forall j :: 0 <= j < |keys| && Joins(edges[j], normalize(l.source), normalize(l.target)) ==> j == i
  {
    hide PairKey, PairKeys, Shown;
    var keys := PairKeys(normalize, links);
    PairKeysMeaning(normalize, links);
    var key := KeyOf(normalize, l);
    FilterMembers(OfPair(normalize, key), links);
    assert l in Entries(normalize, key, links);
    var i :| 0 <= i < |keys| && keys[i] == key;
    var edges := NeighbourEdges(normalize, keys, links, capturedAt);
    EdgeOfKey(normalize, key, links, capturedAt);
    PairKeyMeaning(normalize(l.source), normalize(l.target), edges[i].source, edges[i].target);
    forall j | 0 <= j < |keys| && Joins(edges[j], normalize(l.source), normalize(l.target)) ensures j == i {
      EdgeOfKey(normalize, keys[j], links, capturedAt);
      PairKeyMeaning(normalize(l.source), normalize(l.target), edges[j].source, edges[j].target);
    }
  }

  predicate Joins(e: Edge, a: string, b: string) { (e.source == a && e.target == b) || (e.source == b && e.target == a) }

  /** A pair's edge joins the devices its key names. */
  lemma EdgeOfKey(normalize: Normalize, key: string, links: seq<Link>, capturedAt: string)
    requires Entries(normalize, key, links) != []
    requires forall x :: x in links ==> '|' !in normalize(x.source) && '|' !in normalize(x.target)
    ensures
      var e := NeighbourEdge(normalize, key, links, capturedAt);
      && PairKey(e.source, e.target) == key && '|' !in e.source && '|' !in e.target
      && (forall l :: l in Entries(normalize, key, links) && l.lqi.Some? ==> e.lqi.Some?)
  {
    hide PairKey, Shown;
    var entries := Entries(normalize, key, links);
    ShownMeaning(entries);
    FilterMembers(OfPair(normalize, key), links);
  }

  /* ---------------- devices ---------------- */

  /** The ids of everything that gets a node: inventory, topology nodes, then edge endpoints, each once. */
  method CollectDeviceIds(inventory: seq<string>, nodes: seq<string>, edges: seq<Edge>) returns (ids: seq<string>)
    ensures Distinct(ids)
    ensures forall id :: id in ids <==> id in inventory || id in nodes || id in Endpoints(edges)
  {
    ids := Firsts(inventory + nodes);
    for i := 0 to |edges|
      invariant Distinct(ids)
      invariant forall id :: id in ids <==> id in inventory || id in nodes || id in Endpoints(edges[..i])
    {
      assert edges[..i + 1] == edges[..i] + [edges[i]];
      FiledAppend("", edges[..i], edges[i]);
      if edges[i].source !in ids { ids := ids + [edges[i].source]; }
      if edges[i].target !in ids { ids := ids + [edges[i].target]; }
    }
    assert edges[..|edges|] == edges;
  }

  lemma {:induction false} DistinctSize(ids: seq<string>)
    requires Distinct(ids)
    ensures |Members(ids)| == |ids|
  {
    if ids != [] {
      var init, last := ids[..|ids| - 1], ids[|ids| - 1];
      assert ids == init + [last];
      DistinctSize(init);
      assert Members(ids) == Members(init) + {last};
    }
  }

  function Members(ids: seq<string>): set<string> { set id | id in ids }

  /** On the devices collected for its edges, the link budget always holds for one link per device. */
  lemma CollectedDevicesFitBudget(rank: string -> int, ids: seq<string>, edges: seq<Edge>, exclude: set<string>)
    requires Distinct(ids) && forall id :: id in Endpoints(edges) ==> id in ids
    ensures |Best(rank, edges, MIN_LINKS, exclude)| <= Budget(|ids|)
  {
    hide Best, Budget, Endpoints;
    DistinctSize(ids);
    BudgetAlwaysFits(rank, edges, Members(ids), exclude);
  }
}
