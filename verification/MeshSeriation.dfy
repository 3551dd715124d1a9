/**
 Evidence-based grouping and ordering: which router an end device hangs off, how
 strongly devices are tied, and the greedy chain that puts strongly tied routers
 side by side. Each result is a function of which devices and edges there are,
 not of the order they are listed in.
 */
module MeshSeriation {
  import opened Basics
  import opened Sequences
  import opened MeshTypes

  /* ---------------- end devices and their routers ---------------- */

  datatype Claim = Claim(router: string, lqi: Option<int>)

  /** Recorded LQI beats none, a higher one beats a lower one, and a smaller id breaks ties. */
  predicate Better(a: Claim, b: Claim) {
    || (a.lqi.Some? && (b.lqi.None? || a.lqi.value > b.lqi.value))
    || (a.lqi.Some? && a.lqi == b.lqi && TextLt(a.router, b.router))
    || (a.lqi.None? && b.lqi.None? && TextLt(a.router, b.router))
  }

  lemma BetterOrder(a: Claim, b: Claim, c: Claim)
    ensures a == b || Better(a, b) || Better(b, a)
    ensures !(Better(a, b) && Better(b, a))
    ensures Better(a, b) && Better(b, c) ==> Better(a, c)
  {
    TextLePreorder();
  }

  function RoleOf(devices: seq<Device>, id: string): Option<Role> {
    if devices == [] then None
    else if devices[|devices| - 1].id == id then Some(devices[|devices| - 1].role)
    else RoleOf(devices[..|devices| - 1], id)
  }

  predicate Anchor(role: Option<Role>) { role == Some(Router) || role == Some(Coordinator) }

  /** The edge is latest neighbour evidence tying this end device to this router or coordinator. */
  predicate Evidences(devices: seq<Device>, e: Edge, device: string, c: Claim) {
    && e.evidence.LatestNeighbor? && e.lqi == c.lqi
    && ((e.source == device && e.target == c.router) || (e.target == device && e.source == c.router))
    && RoleOf(devices, device) == Some(EndDevice) && Anchor(RoleOf(devices, c.router))
  }

  ghost predicate Claimed(devices: seq<Device>, edges: seq<Edge>, device: string, c: Claim) {
    exists e :: e in edges && Evidences(devices, e, device, c)
  }

  /** The strongest claim there is on a device. */
  ghost predicate BestClaim(devices: seq<Device>, edges: seq<Edge>, device: string, c: Claim) {
    Claimed(devices, edges, device, c) &&
    forall d :: Claimed(devices, edges, device, d) ==> d == c || Better(c, d)
  }

  lemma BestClaimUnique(devices: seq<Device>, edges: seq<Edge>, device: string, c: Claim, d: Claim)
    requires BestClaim(devices, edges, device, c) && BestClaim(devices, edges, device, d)
    ensures c == d
  {
    BetterOrder(c, d, c);
  }

  ghost predicate BestSoFar(devices: seq<Device>, edges: seq<Edge>, best: map<string, Claim>) {
    && (forall v :: v in best ==> BestClaim(devices, edges, v, best[v]))
    && (forall v, c :: Claimed(devices, edges, v, c) ==> v in best)
  }

  function RoleMap(devices: seq<Device>): (m: map<string, Role>)
    ensures forall id :: RoleOf(devices, id) == if id in m then Some(m[id]) else None
  {
    if devices == [] then map[]
    else RoleMap(devices[..|devices| - 1])[devices[|devices| - 1].id := devices[|devices| - 1].role]
  }

  /** Offering one more claim keeps the better of the two. */
  function Offer(best: map<string, Claim>, device: string, c: Claim): map<string, Claim> {
    if device !in best || Better(c, best[device]) then best[device := c] else best
  }

  /** What an edge offers when read from one of its ends. */
  function OfferEnd(devices: seq<Device>, best: map<string, Claim>, e: Edge, device: string, other: string)
    : map<string, Claim>
  {
    if RoleOf(devices, device) == Some(EndDevice) && Anchor(RoleOf(devices, other))
    then Offer(best, device, Claim(other, e.lqi)) else best
  }

  /** As `BestSoFar`, but for the claims of `edges` and of one end of `e`. */
  ghost predicate BestWithEnd(
    devices: seq<Device>, edges: seq<Edge>, e: Edge, device: string, other: string, best: map<string, Claim>)
  {
    && (forall v :: v in best ==>
          && (Claimed(devices, edges, v, best[v]) || (v == device && Evidences(devices, e, v, best[v])))
          && (forall d :: Claimed(devices, edges, v, d) ==> d == best[v] || Better(best[v], d)))
    && (forall v, c :: Claimed(devices, edges, v, c) ==> v in best)
    && (Evidences(devices, e, device, Claim(other, e.lqi)) ==>
          device in best && (best[device] == Claim(other, e.lqi) || Better(best[device], Claim(other, e.lqi))))
  }

  lemma FirstEnd(devices: seq<Device>, edges: seq<Edge>, e: Edge, best: map<string, Claim>, device: string, other: string)
    requires BestSoFar(devices, edges, best) && e.evidence.LatestNeighbor?
    requires (device == e.source && other == e.target) || (device == e.target && other == e.source)
    ensures BestWithEnd(devices, edges, e, device, other, OfferEnd(devices, best, e, device, other))
  {
    var c := Claim(other, e.lqi);
    var after := OfferEnd(devices, best, e, device, other);
    if device in best {
      BetterOrder(c, best[device], c);
      forall d | Claimed(devices, edges, device, d) ensures d == best[device] || Better(best[device], d) {}
      forall d { BetterOrder(c, best[device], d); }
    }
  }

  lemma BothEnds(devices: seq<Device>, edges: seq<Edge>, e: Edge, best: map<string, Claim>)
    requires BestSoFar(devices, edges, best) && e.evidence.LatestNeighbor?
    ensures BestSoFar(devices, edges + [e],
                      OfferEnd(devices, OfferEnd(devices, best, e, e.source, e.target), e, e.target, e.source))
  {
    hide RoleOf, Claimed;
    var half := OfferEnd(devices, best, e, e.source, e.target);
    var after := OfferEnd(devices, half, e, e.target, e.source);
    FirstEnd(devices, edges, e, best, e.source, e.target);
    forall v, c ensures Claimed(devices, edges + [e], v, c) <==>
                        Claimed(devices, edges, v, c) || Evidences(devices, e, v, c) {
      ClaimedAppend(devices, edges, e, v, c);
    }
    var c := Claim(e.source, e.lqi);
    if e.target in half {
      BetterOrder(c, half[e.target], c);
      forall d { BetterOrder(c, half[e.target], d); }
    }
  }

  lemma ClaimedAppend(devices: seq<Device>, edges: seq<Edge>, e: Edge, v: string, c: Claim)
    ensures Claimed(devices, edges + [e], v, c) <==> Claimed(devices, edges, v, c) || Evidences(devices, e, v, c)
  {
    if Claimed(devices, edges, v, c) {
      var x :| x in edges && Evidences(devices, x, v, c);
      assert x in edges + [e];
    }
    if Evidences(devices, e, v, c) {
      assert e in edges + [e];
    }
  }

  lemma NothingClaimed(devices: seq<Device>)
    ensures BestSoFar(devices, [], map[])
  {
  }

  lemma OtherEvidence(devices: seq<Device>, edges: seq<Edge>, e: Edge, best: map<string, Claim>)
    requires BestSoFar(devices, edges, best) && !e.evidence.LatestNeighbor?
    ensures BestSoFar(devices, edges + [e], best)
  {
    forall v, c ensures Claimed(devices, edges + [e], v, c) <==> Claimed(devices, edges, v, c) {
      ClaimedAppend(devices, edges, e, v, c);
    }
  }

  /** Each end device with router evidence is assigned to its strongest claim, and no other device is. */
  method AssignEndDevices(devices: seq<Device>, edges: seq<Edge>) returns (best: map<string, Claim>)
    ensures BestSoFar(devices, edges, best)
  {
    hide BestSoFar, Anchor, Offer;
    var roleById := RoleMap(devices);
    best := map[];
    NothingClaimed(devices);
    for i := 0 to |edges|
      invariant BestSoFar(devices, edges[..i], best)
    {
      var edge := edges[i];
      assert edges[..i + 1] == edges[..i] + [edge];
      if edge.evidence.LatestNeighbor? {
        ghost var before := best;
        var device, other := edge.source, edge.target;
        var turn := 0;
        while turn < 2
          invariant 0 <= turn <= 2
          invariant turn == 0 ==> device == edge.source && other == edge.target && best == before
          invariant turn == 1 ==> device == edge.target && other == edge.source
          invariant turn == 1 ==> best == OfferEnd(devices, before, edge, edge.source, edge.target)
          invariant turn == 2 ==>
                      best == OfferEnd(devices, OfferEnd(devices, before, edge, edge.source, edge.target),
                                       edge, edge.target, edge.source)
        {
          var role := if device in roleById then Some(roleById[device]) else None;
          var otherRole := if other in roleById then Some(roleById[other]) else None;
          if role == Some(EndDevice) && Anchor(otherRole) {
            best := Offer(best, device, Claim(other, edge.lqi));
          }
          device, other := other, device;
          turn := turn + 1;
        }
        BothEnds(devices, edges[..i], edge, before);
      } else {
        OtherEvidence(devices, edges[..i], edge, best);
      }
    }
    assert edges[..|edges|] == edges;
  }

  lemma ClaimedPermuted(devices: seq<Device>, edges: seq<Edge>, edges': seq<Edge>, v: string, c: Claim)
    requires multiset(edges) == multiset(edges')
    ensures Claimed(devices, edges, v, c) <==> Claimed(devices, edges', v, c)
  {
    PermutedMembers(edges, edges');
  }

  /** The assignment is the same for every order of the edges. */
  lemma AssignmentPermuted(
    devices: seq<Device>, edges: seq<Edge>, edges': seq<Edge>, best: map<string, Claim>, best': map<string, Claim>)
    requires multiset(edges) == multiset(edges')
    requires BestSoFar(devices, edges, best) && BestSoFar(devices, edges', best')
    ensures best == best'
  {
    forall v, c ensures Claimed(devices, edges, v, c) <==> Claimed(devices, edges', v, c) {
      ClaimedPermuted(devices, edges, edges', v, c);
    }
    forall v ensures v in best <==> v in best' {}
    forall v | v in best ensures best[v] == best'[v] {
      BestClaimUnique(devices, edges, v, best[v], best'[v]);
    }
  }

  /* ---------------- evidence weights ---------------- */

  const NEUTRAL_LQI := 60
  const ROUTE_BONUS := 400

  function LqiOr(e: Edge): int { if e.lqi.Some? then e.lqi.value else NEUTRAL_LQI }

  predicate Counted(members: set<string>, e: Edge) {
    && e.source != e.target && e.source in members && e.target in members
    && (e.evidence.LatestRoute? || e.evidence.LatestNeighbor?)
  }

  function Contribution(e: Edge): int { if e.evidence.LatestRoute? then ROUTE_BONUS + LqiOr(e) else LqiOr(e) }

  function ToKey(members: set<string>, key: string): Edge -> int {
    (e: Edge) => if Counted(members, e) && PairKey(e.source, e.target) == key then Contribution(e) else 0
  }

  /** Everything the evidence adds up to for one pair key. */
  function PairWeight(members: set<string>, edges: seq<Edge>, key: string): int { Total(ToKey(members, key), edges) }

  function OnRoute(members: set<string>, key: string): Edge -> bool {
    (e: Edge) => Counted(members, e) && PairKey(e.source, e.target) == key && e.evidence.LatestRoute?
  }

  function Recorded(members: set<string>, key: string): Edge -> int {
    (e: Edge) =>
      if Counted(members, e) && PairKey(e.source, e.target) == key then (if e.lqi.Some? then e.lqi.value else 60) else 0
  }

  /** A pair weighs what its links record, sixty where nothing is recorded, and four hundred more for every route. */
  lemma {:induction false} WeightMeaning(members: set<string>, edges: seq<Edge>, key: string)
    ensures PairWeight(members, edges, key) ==
            Total(Recorded(members, key), edges) + 400 * |Filter(OnRoute(members, key), edges)|
  {
    hide PairKey;
    if edges != [] { WeightMeaning(members, edges[..|edges| - 1], key); }
  }

  /** The pair keys of the counted edges, in order, repeats included. */
  function Keys(members: set<string>, edges: seq<Edge>): seq<string> {
    if edges == [] then []
    else
      var e := edges[|edges| - 1];
      Keys(members, edges[..|edges| - 1]) + (if Counted(members, e) then [PairKey(e.source, e.target)] else [])
  }

  lemma KeysAppend(members: set<string>, edges: seq<Edge>, e: Edge)
    ensures Keys(members, edges + [e]) ==
            Keys(members, edges) + (if Counted(members, e) then [PairKey(e.source, e.target)] else [])
  {
    assert (edges + [e])[..|edges|] == edges;
  }

  lemma {:induction false} UnseenKeyWeighsNothing(members: set<string>, edges: seq<Edge>, key: string)
    requires key !in Keys(members, edges)
    ensures PairWeight(members, edges, key) == 0
  {
    if edges != [] {
      var init, last := edges[..|edges| - 1], edges[|edges| - 1];
      assert edges == init + [last];
      KeysAppend(members, init, last);
      UnseenKeyWeighsNothing(members, init, key);
    }
  }

  ghost predicate Weighs(members: set<string>, edges: seq<Edge>, weights: map<string, int>) {
    && (forall k :: k in weights <==> k in Keys(members, edges))
    && (forall k :: k in weights ==> weights[k] == PairWeight(members, edges, k))
  }

  lemma WeighsSkip(members: set<string>, edges: seq<Edge>, e: Edge, weights: map<string, int>)
    requires Weighs(members, edges, weights) && !Counted(members, e)
    ensures Weighs(members, edges + [e], weights) && Keys(members, edges + [e]) == Keys(members, edges)
  {
    KeysAppend(members, edges, e);
    forall k ensures PairWeight(members, edges + [e], k) == PairWeight(members, edges, k) {
      TotalAppend(ToKey(members, k), edges, e);
    }
  }

  lemma WeighsAdd(members: set<string>, edges: seq<Edge>, e: Edge, weights: map<string, int>)
    requires Weighs(members, edges, weights) && Counted(members, e)
    ensures
      var key := PairKey(e.source, e.target);
      Weighs(members, edges + [e], weights[key := (if key in weights then weights[key] else 0) + Contribution(e)])
  {
    var key := PairKey(e.source, e.target);
    KeysAppend(members, edges, e);
    if key !in weights { UnseenKeyWeighsNothing(members, edges, key); }
    forall k ensures PairWeight(members, edges + [e], k) ==
                     PairWeight(members, edges, k) + (if k == key then Contribution(e) else 0) {
      TotalAppend(ToKey(members, k), edges, e);
    }
  }

  /** The weight table, with its keys in the order they were first seen. */
  method EvidencePairWeights(members: set<string>, edges: seq<Edge>)
    returns (weights: map<string, int>, order: seq<string>)
    ensures Weighs(members, edges, weights)
    ensures order == Firsts(Keys(members, edges))
  {
    hide Weighs, PairKey, Contribution, Keys, Firsts, PairWeight;
    weights, order := map[], [];
    NothingWeighed(members, edges[..0]);
    for i := 0 to |edges|
      invariant Weighs(members, edges[..i], weights)
      invariant order == Firsts(Keys(members, edges[..i]))
    {
      var edge := edges[i];
      assert edges[..i + 1] == edges[..i] + [edge];
      KeysAppend(members, edges[..i], edge);
      if edge.source == edge.target || edge.source !in members || edge.target !in members {
        WeighsSkip(members, edges[..i], edge, weights);
        continue;
      }
      if !edge.evidence.LatestRoute? && !edge.evidence.LatestNeighbor? {
        WeighsSkip(members, edges[..i], edge, weights);
        continue;
      }
      var w := Contribution(edge);
      var key := PairKey(edge.source, edge.target);
      FirstsAppend(Keys(members, edges[..i]), key);
      WeighsAdd(members, edges[..i], edge, weights);
      WeighsKeys(members, edges[..i], weights, key);
      if key !in weights { order := order + [key]; }
      weights := weights[key := (if key in weights then weights[key] else 0) + w];
    }
    assert edges[..|edges|] == edges;
  }

  lemma NothingWeighed(members: set<string>, edges: seq<Edge>)
    requires edges == []
    ensures Weighs(members, edges, map[]) && Firsts(Keys(members, edges)) == []
  {
  }

  lemma WeighsKeys(members: set<string>, edges: seq<Edge>, weights: map<string, int>, key: string)
    requires Weighs(members, edges, weights)
    ensures key in weights <==> key in Keys(members, edges)
    ensures (if key in weights then weights[key] else 0) == PairWeight(members, edges, key)
  {
    if key !in weights { UnseenKeyWeighsNothing(members, edges, key); }
  }

  /** The weights do not depend on the order of the edges. */
  lemma PairWeightPermuted(members: set<string>, edges: seq<Edge>, edges': seq<Edge>, key: string)
    requires multiset(edges) == multiset(edges')
    ensures PairWeight(members, edges, key) == PairWeight(members, edges', key)
  {
    TotalPermuted(ToKey(members, key), edges, edges');
  }

  /* ---------------- totals per device ---------------- */

  /** The two texts either side of the first separator. */
  function SplitKey(key: string): (string, string) {
    if key == "" then ("", "")
    else if key[0] == '|' then ("", key[1..])
    else
      var rest := SplitKey(key[1..]);
      ([key[0]] + rest.0, rest.1)
  }

  lemma {:induction false} SplitJoined(a: string, b: string)
    requires '|' !in a
    ensures SplitKey(a + "|" + b) == (a, b)
  {
    var key := a + "|" + b;
    if a == "" {
      assert key[1..] == b;
    } else {
      assert key[0] == a[0] && key[0] != '|';
      assert key[1..] == a[1..] + "|" + b;
      SplitJoined(a[1..], b);
      assert a == [a[0]] + a[1..];
    }
  }

  lemma SplitPairKey(e: Edge)
    requires '|' !in e.source && '|' !in e.target
    ensures
      var p := SplitKey(PairKey(e.source, e.target));
      p == (e.source, e.target) || p == (e.target, e.source)
  {
    SplitJoined(e.source, e.target);
    SplitJoined(e.target, e.source);
  }

  function Share(members: set<string>, v: string): Edge -> int {
    (e: Edge) => if Counted(members, e) && Touches(v)(e) then Contribution(e) else 0
  }

  /** All the counted evidence a device takes part in. */
  function DeviceTotal(members: set<string>, edges: seq<Edge>, v: string): int { Total(Share(members, v), edges) }

  predicate Names(k: string, v: string) { SplitKey(k).0 == v || SplitKey(k).1 == v }

  lemma NamesEnds(e: Edge, v: string)
    requires '|' !in e.source && '|' !in e.target
    ensures Names(PairKey(e.source, e.target), v) == Touches(v)(e)
  {
    hide SplitKey, PairKey;
    SplitPairKey(e);
  }

  function OfKey(members: set<string>, edges: seq<Edge>, v: string): string -> int {
    (k: string) => if Names(k, v) then PairWeight(members, edges, k) else 0
  }

  lemma PairWeightStep(members: set<string>, edges: seq<Edge>, e: Edge, k: string)
    ensures PairWeight(members, edges + [e], k) ==
            PairWeight(members, edges, k) +
            (if Counted(members, e) && PairKey(e.source, e.target) == k then Contribution(e) else 0)
  {
    hide Total, PairKey, Contribution, Counted;
    TotalAppend(ToKey(members, k), edges, e);
  }

  /** What one more edge adds to a device's entry for one key. */
  lemma KeyStep(members: set<string>, edges: seq<Edge>, e: Edge, v: string, k: string)
    requires '|' !in e.source && '|' !in e.target
    ensures OfKey(members, edges + [e], v)(k) ==
            OfKey(members, edges, v)(k) + (if k == PairKey(e.source, e.target) then Share(members, v)(e) else 0)
  {
    hide PairWeight, PairKey, Contribution, Counted, Names;
    PairWeightStep(members, edges, e, k);
    NamesEnds(e, v);
  }

  /** Adding one edge changes the sum over distinct keys at its own key alone. */
  lemma {:induction false} KeySumStep(
    members: set<string>, edges: seq<Edge>, e: Edge, v: string, keys: seq<string>)
    requires Distinct(keys) && '|' !in e.source && '|' !in e.target
    ensures Total(OfKey(members, edges + [e], v), keys) ==
            Total(OfKey(members, edges, v), keys) +
            (if PairKey(e.source, e.target) in keys then Share(members, v)(e) else 0)
  {
    hide PairKey, OfKey, Share;
    if keys != [] {
      var init, k := keys[..|keys| - 1], keys[|keys| - 1];
      assert keys == init + [k];
      KeySumStep(members, edges, e, v, init);
      KeyStep(members, edges, e, v, k);
    }
  }

  lemma OwnKey(members: set<string>, edges: seq<Edge>, e: Edge, v: string)
    ensures PairKey(e.source, e.target) in Keys(members, edges + [e]) || Share(members, v)(e) == 0
  {
    KeysAppend(members, edges, e);
  }

  lemma {:induction false} KeySum(members: set<string>, edges: seq<Edge>, v: string, keys: seq<string>)
    requires Distinct(keys) && BarFree(edges)
    requires forall k :: k in Keys(members, edges) ==> k in keys
    ensures Total(OfKey(members, edges, v), keys) == DeviceTotal(members, edges, v)
  {
    hide PairKey, OfKey, Share, Total, Keys;
    if edges == [] {
      NoKeySum(members, v, keys);
    } else {
      var init, last := edges[..|edges| - 1], edges[|edges| - 1];
      assert edges == init + [last] && last in edges;
      forall x | x in init ensures x in edges {}
      KeysAppend(members, init, last);
      KeySum(members, init, v, keys);
      KeySumStep(members, init, last, v, keys);
      OwnKey(members, init, last, v);
      TotalAppend(Share(members, v), init, last);
    }
  }

  lemma {:induction false} NoKeySum(members: set<string>, v: string, keys: seq<string>)
    ensures Total(OfKey(members, [], v), keys) == 0 == DeviceTotal(members, [], v)
  {
    hide Names;
    if keys != [] { NoKeySum(members, v, keys[..|keys| - 1]); }
  }

  function TotalIn<T(==)>(totals: map<T, int>, v: T): int { if v in totals then totals[v] else 0 }

  function Bump<T(==)>(totals: map<T, int>, v: T, w: int): map<T, int> { totals[v := TotalIn(totals, v) + w] }

  lemma BumpTwice<T>(totals: map<T, int>, a: T, b: T, w: int, v: T)
    requires a != b
    ensures TotalIn(Bump(Bump(totals, a, w), b, w), v) == TotalIn(totals, v) + if v == a || v == b then w else 0
  {
  }

  /** Summing the weight table by device gives each device the evidence it takes part in. */
  method DeviceTotals(members: set<string>, edges: seq<Edge>, weights: map<string, int>, order: seq<string>)
    returns (totals: map<string, int>)
    requires BarFree(edges) && Weighs(members, edges, weights) && order == Firsts(Keys(members, edges))
    ensures forall v :: TotalIn(totals, v) == DeviceTotal(members, edges, v)
  {
    hide Weighs, BarFree, Keys, PairKey, OfKey, SplitKey, Total, Bump, TotalIn;
    totals := map[];
    forall v ensures TotalIn(totals, v) == Total(OfKey(members, edges, v), order[..0]) { NoTotalYet(members, edges, v); }
    for i := 0 to |order|
      invariant forall v :: TotalIn(totals, v) == Total(OfKey(members, edges, v), order[..i])
    {
      var key := order[i];
      assert order[..i + 1] == order[..i] + [key];
      WeighsKeys(members, edges, weights, key);
      SplitDiffers(members, edges, key);
      var w := weights[key];
      var pair := SplitKey(key);
      forall v ensures TotalIn(Bump(Bump(totals, pair.0, w), pair.1, w), v) ==
                       Total(OfKey(members, edges, v), order[..i + 1]) {
        TotalAppend(OfKey(members, edges, v), order[..i], key);
        BumpBoth(members, edges, v, totals, key, w);
      }
      totals := Bump(Bump(totals, pair.0, w), pair.1, w);
    }
    assert order[..|order|] == order;
    forall v ensures TotalIn(totals, v) == DeviceTotal(members, edges, v) {
      KeySum(members, edges, v, order);
    }
  }

  lemma NoTotalYet(members: set<string>, edges: seq<Edge>, v: string)
    ensures TotalIn(map[], v) == Total(OfKey(members, edges, v), [])
  {
  }

  lemma BumpBoth(members: set<string>, edges: seq<Edge>, v: string, totals: map<string, int>, key: string, w: int)
    requires SplitKey(key).0 != SplitKey(key).1 && w == PairWeight(members, edges, key)
    ensures TotalIn(Bump(Bump(totals, SplitKey(key).0, w), SplitKey(key).1, w), v) ==
            TotalIn(totals, v) + OfKey(members, edges, v)(key)
  {
    hide PairWeight, SplitKey, Bump, TotalIn;
    BumpTwice(totals, SplitKey(key).0, SplitKey(key).1, w, v);
  }

  lemma {:induction false} SplitDiffers(members: set<string>, edges: seq<Edge>, key: string)
    requires BarFree(edges) && key in Keys(members, edges)
    ensures SplitKey(key).0 != SplitKey(key).1
    ensures SplitKey(key).0 in members && SplitKey(key).1 in members
  {
    var init, last := edges[..|edges| - 1], edges[|edges| - 1];
    assert edges == init + [last] && last in edges;
    KeysAppend(members, init, last);
    SplitPairKey(last);
    if key in Keys(members, init) {
      forall x | x in init ensures x in edges {}
      SplitDiffers(members, init, key);
    }
  }
}
