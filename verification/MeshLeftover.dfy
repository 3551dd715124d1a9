/**
 Which routers seriation leaves over. The chain attracts at its two ends only, so
 a router may be left over although it has evidence to the middle of the chain:
 this module says exactly when that happens.
 */
module MeshLeftover {
  import opened Basics
  import opened Sequences
  import opened MeshTypes
  import opened MeshSeriation
  import opened MeshOrdering

  /* ---------------- partners and groups ---------------- */

  /** The identifiers that evidence ties to `a`. */
  function Partners<T>(w: (T, T) -> int, ids: set<T>, a: T): set<T> { set b | b in ids && b != a && w(a, b) > 0 }

  /** Evidence leads from `a` to `b`, directly or through others. */
  ghost predicate Joined<T(!new)>(w: (T, T) -> int, ids: set<T>, a: T, b: T) {
    exists p: seq<T> :: Path(w, ids, p) && p[0] == a && p[|p| - 1] == b
  }

  ghost predicate Path<T>(w: (T, T) -> int, ids: set<T>, p: seq<T>) {
    |p| > 0 && Bonded(w, p) && forall x :: x in p ==> x in ids
  }

  /** Nobody left over has evidence to anybody in the chain. */
  ghost predicate NothingDropped<T>(w: (T, T) -> int, c: Chain<T>) {
    forall x, m :: x in c.left && m in c.linked ==> w(m, x) <= 0
  }

  ghost predicate Symmetric<T(!new)>(w: (T, T) -> int) { forall a, b :: w(a, b) == w(b, a) }

  /** A finished chain from `seed`: everything is in one place, and the chain follows the evidence. */
  ghost predicate Finished<T(!new)>(w: (T, T) -> int, ids: set<T>, seed: T, c: Chain<T>) {
    && Bonded(w, c.linked) && Cut(w, c) && Distinct(c.linked) && seed in c.linked
    && (forall x :: x in c.linked || x in c.left <==> x in ids)
    && (forall x :: x in c.linked ==> x !in c.left && Joined(w, ids, seed, x))
  }

  lemma JoinOne<T(!new)>(w: (T, T) -> int, ids: set<T>, a: T, b: T, x: T)
    requires Joined(w, ids, a, b) && x in ids && w(b, x) > 0
    ensures Joined(w, ids, a, x)
  {
    var p: seq<T> :| Path(w, ids, p) && p[0] == a && p[|p| - 1] == b;
    var q := p + [x];
    assert Path(w, ids, q) && q[0] == a && q[|q| - 1] == x;
  }

  lemma {:induction false} GrowFinishes<T(!new)>(
    lt: (T, T) -> bool, w: (T, T) -> int, ids: set<T>, seed: T, chain: seq<T>, remaining: seq<T>)
    requires |chain| > 0 && StrictOrder(lt) && Symmetric(w)
    requires forall x :: x in remaining ==> x in ids
    requires forall x :: x in chain ==> Joined(w, ids, seed, x)
    ensures forall x :: x in Grow(lt, w, chain, remaining).linked ==> Joined(w, ids, seed, x)
    ensures forall x :: x in chain ==> x in Grow(lt, w, chain, remaining).linked
    decreases |remaining|
  {
    hide Scan, Without, Stronger, Joined;
    var head, tail := chain[0], chain[|chain| - 1];
    var best := Scan(lt, w, remaining, head, tail);
    ScanChooses(lt, w, remaining, head, tail);
    if best.Some? {
      var l := best.value;
      var longer := Attach(chain, l);
      JoinOne(w, ids, seed, if l.atTail then tail else head, l.id);
      GrowFinishes(lt, w, ids, seed, longer, Without(l.id, remaining));
    }
  }

  /* ---------------- the chain and the group of its seed ---------------- */

  lemma {:induction false} PathStays<T(!new)>(w: (T, T) -> int, ids: set<T>, p: seq<T>, inside: set<T>, i: nat)
    requires Path(w, ids, p) && p[0] in inside && i < |p|
    requires forall a, b :: a in inside && b in ids && w(a, b) > 0 ==> b in inside
    ensures p[i] in inside
  {
    if i > 0 {
      PathStays(w, ids, p, inside, i - 1);
      assert w(p[i - 1], p[i]) > 0;
    }
  }

  /** Nothing with evidence to the chain is left over exactly if the chain holds all that evidence joins to its seed. */
  lemma NothingDroppedMeansWholeGroup<T(!new)>(w: (T, T) -> int, ids: set<T>, seed: T, c: Chain<T>)
    requires Finished(w, ids, seed, c)
    ensures NothingDropped(w, c) <==> forall x :: x in ids && Joined(w, ids, seed, x) ==> x in c.linked
  {
    if NothingDropped(w, c) {
      var inside := set m | m in c.linked;
      forall x | x in ids && Joined(w, ids, seed, x) ensures x in c.linked {
        var p: seq<T> :| Path(w, ids, p) && p[0] == seed && p[|p| - 1] == x;
        PathStays(w, ids, p, inside, |p| - 1);
      }
    } else {
      var x, m :| x in c.left && m in c.linked && w(m, x) > 0;
      JoinOne(w, ids, seed, m, x);
    }
  }

  lemma ThreePartners<T>(s: set<T>, a: T, b: T, c: T)
    requires {a, b, c} <= s && a != b && b != c && a != c
    ensures |s| >= 3
  {
    SubsetSize({a, b, c}, s);
  }

  /** A router that lost somebody left over has two neighbours in the chain, and so at least three partners. */
  lemma DroppedIsThird<T(!new)>(w: (T, T) -> int, ids: set<T>, seed: T, c: Chain<T>, i: nat, x: T)
    requires Finished(w, ids, seed, c) && Symmetric(w) && i < |c.linked| && x in c.left && w(c.linked[i], x) > 0
    ensures 0 < i < |c.linked| - 1
    ensures {c.linked[i - 1], c.linked[i + 1], x} <= Partners(w, ids, c.linked[i])
    ensures |Partners(w, ids, c.linked[i])| >= 3
  {
    var m := c.linked[i];
    assert w(x, m) == w(m, x);
    assert 0 < i < |c.linked| - 1;
    var a, b := c.linked[i - 1], c.linked[i + 1];
    assert w(a, m) == w(m, a);
    assert a in c.linked && b in c.linked && m in c.linked;
    ThreePartners(Partners(w, ids, m), a, b, x);
  }

  /* ---------------- evidence without rings ---------------- */

  /** No three or more different routers are tied in a ring. */
  ghost predicate NoRing<T(!new)>(w: (T, T) -> int, ids: set<T>) {
    forall p: seq<T> :: |p| >= 3 && Distinct(p) && Path(w, ids, p) ==> w(p[|p| - 1], p[0]) <= 0
  }

  lemma NoChord<T(!new)>(w: (T, T) -> int, ids: set<T>, chain: seq<T>, i: nat, j: nat)
    requires NoRing(w, ids) && Path(w, ids, chain) && Distinct(chain) && i + 1 < j < |chain|
    ensures w(chain[j], chain[i]) <= 0
  {
    var p := chain[i..j + 1];
    assert Path(w, ids, p) && Distinct(p);
  }

  /** Without rings, a router in a chain that drops nobody has no partners but its neighbours in the chain. */
  lemma NeighboursOnly<T(!new)>(w: (T, T) -> int, ids: set<T>, seed: T, c: Chain<T>, i: nat)
    requires Finished(w, ids, seed, c) && Symmetric(w) && NoRing(w, ids) && NothingDropped(w, c) && i < |c.linked|
    ensures |Partners(w, ids, c.linked[i])| <= 2
  {
    var m := c.linked[i];
    var left := if i > 0 then {c.linked[i - 1]} else {};
    var right := if i < |c.linked| - 1 then {c.linked[i + 1]} else {};
    forall y | y in Partners(w, ids, m) ensures y in left + right {
      assert y in c.linked;
      var j :| 0 <= j < |c.linked| && c.linked[j] == y;
      if j + 1 < i { NoChord(w, ids, c.linked, j, i); }
      if i + 1 < j { NoChord(w, ids, c.linked, i, j); }
    }
    SubsetSize(Partners(w, ids, m), left + right);
  }

  /** If nothing the seed is joined to has a third partner, nothing with evidence to the chain is left over. */
  lemma TwoPartnersSuffice<T(!new)>(w: (T, T) -> int, ids: set<T>, seed: T, c: Chain<T>)
    requires Finished(w, ids, seed, c) && Symmetric(w)
    requires forall x :: x in ids && Joined(w, ids, seed, x) ==> |Partners(w, ids, x)| <= 2
    ensures NothingDropped(w, c)
  {
    forall x, m | x in c.left && m in c.linked ensures w(m, x) <= 0 {
      var i :| 0 <= i < |c.linked| && c.linked[i] == m;
      if w(m, x) > 0 { DroppedIsThird(w, ids, seed, c, i, x); }
    }
  }

  /** Without rings that is also necessary. */
  lemma TwoPartnersExactly<T(!new)>(w: (T, T) -> int, ids: set<T>, seed: T, c: Chain<T>)
    requires Finished(w, ids, seed, c) && Symmetric(w) && NoRing(w, ids)
    ensures NothingDropped(w, c) <==> forall x :: x in ids && Joined(w, ids, seed, x) ==> |Partners(w, ids, x)| <= 2
  {
    if NothingDropped(w, c) {
      NothingDroppedMeansWholeGroup(w, ids, seed, c);
      forall x | x in ids && Joined(w, ids, seed, x) ensures |Partners(w, ids, x)| <= 2 {
        var i :| 0 <= i < |c.linked| && c.linked[i] == x;
        NeighboursOnly(w, ids, seed, c, i);
      }
    } else {
      if forall x :: x in ids && Joined(w, ids, seed, x) ==> |Partners(w, ids, x)| <= 2 {
        TwoPartnersSuffice(w, ids, seed, c);
      }
    }
  }

  /* ---------------- who wins ---------------- */

  /** Inside the chain, no neighbour lost its place to something less tied. */
  ghost predicate Outdone<T>(w: (T, T) -> int, chain: seq<T>, left: seq<T>) {
    forall i, x :: 0 < i < |chain| - 1 && x in left ==>
      w(x, chain[i]) <= w(chain[i - 1], chain[i]) || w(x, chain[i]) <= w(chain[i + 1], chain[i])
  }

  lemma AttachedWeight<T(!new)>(lt: (T, T) -> bool, w: (T, T) -> int, chain: seq<T>, remaining: seq<T>, l: Link<T>)
    requires |chain| > 0 && Choice(lt, w, remaining, chain[0], chain[|chain| - 1], Some(l))
    ensures l.weight == w(l.id, if l.atTail then chain[|chain| - 1] else chain[0])
  {
  }

  lemma AttachedIsStrongest<T(!new)>(
    lt: (T, T) -> bool, w: (T, T) -> int, chain: seq<T>, remaining: seq<T>, l: Link<T>, x: T)
    requires |chain| > 0 && Choice(lt, w, remaining, chain[0], chain[|chain| - 1], Some(l)) && x in remaining
    ensures w(x, if l.atTail then chain[|chain| - 1] else chain[0]) <= l.weight
  {
    var other := LinkTo(w, x, chain[0], chain[|chain| - 1], l.atTail);
    if other.weight > 0 { assert Offered(w, remaining, chain[0], chain[|chain| - 1], other); }
  }

  lemma AttachOutdoes<T(!new)>(
    lt: (T, T) -> bool, w: (T, T) -> int, chain: seq<T>, remaining: seq<T>, rest: seq<T>, l: Link<T>)
    requires |chain| > 0 && Choice(lt, w, remaining, chain[0], chain[|chain| - 1], Some(l))
    requires forall x :: x in rest ==> x in remaining
    requires Outdone(w, chain, remaining)
    ensures Outdone(w, Attach(chain, l), rest)
  {
    hide Choice;
    var longer := Attach(chain, l);
    forall x | x in rest ensures w(x, if l.atTail then chain[|chain| - 1] else chain[0]) <= l.weight {
      AttachedIsStrongest(lt, w, chain, remaining, l, x);
    }
    AttachedWeight(lt, w, chain, remaining, l);
    forall i, x | 0 < i < |longer| - 1 && x in rest
      ensures w(x, longer[i]) <= w(longer[i - 1], longer[i]) || w(x, longer[i]) <= w(longer[i + 1], longer[i])
    {
      var k := if l.atTail then i else i - 1;
      assert longer[i] == chain[k];
      if 0 < k < |chain| - 1 {
        assert w(x, chain[k]) <= w(chain[k - 1], chain[k]) || w(x, chain[k]) <= w(chain[k + 1], chain[k]);
      }
    }
  }

  lemma {:induction false} GrowOutdoes<T(!new)>(
    lt: (T, T) -> bool, w: (T, T) -> int, chain: seq<T>, remaining: seq<T>)
    requires |chain| > 0 && StrictOrder(lt) && Outdone(w, chain, remaining)
    ensures Outdone(w, Grow(lt, w, chain, remaining).linked, Grow(lt, w, chain, remaining).left)
    decreases |remaining|
  {
    hide Scan, Without, Stronger, Choice, Outdone, Attach;
    var head, tail := chain[0], chain[|chain| - 1];
    var best := Scan(lt, w, remaining, head, tail);
    ScanChooses(lt, w, remaining, head, tail);
    if best.Some? {
      AttachOutdoes(lt, w, chain, remaining, Without(best.value.id, remaining), best.value);
      GrowOutdoes(lt, w, Attach(chain, best.value), Without(best.value.id, remaining));
    }
  }

  /* ---------------- the routers of a mesh ---------------- */

  /** The evidence between two routers. */
  function Tie(routers: seq<Device>, edges: seq<Edge>): (string, string) -> int { Bond(IdSet(routers), edges) }

  function SeedId(rank: string -> int, routers: seq<Device>, edges: seq<Edge>): string
    requires routers != []
  {
    Seed(rank, IdSet(routers), routers, edges).id
  }

  lemma TieSymmetric(routers: seq<Device>, edges: seq<Edge>)
    ensures Symmetric(Tie(routers, edges))
  {
    hide PairKey;
    forall a, b ensures Tie(routers, edges)(a, b) == Tie(routers, edges)(b, a) { PairKeySymmetric(a, b); }
  }

  lemma SeedAlone(routers: seq<Device>, edges: seq<Edge>, seed: string)
    requires seed in IdSet(routers)
    ensures Joined(Tie(routers, edges), IdSet(routers), seed, seed)
    ensures Outdone(Tie(routers, edges), [seed], Without(seed, Firsts(Map(IdOf(), routers))))
  {
    hide Bond, IdSet;
    var p := [seed];
    assert Path(Tie(routers, edges), IdSet(routers), p) && p[0] == seed && p[|p| - 1] == seed;
  }

  lemma SeriatedFinishes(rank: string -> int, routers: seq<Device>, edges: seq<Edge>)
    requires routers != []
    ensures Finished(Tie(routers, edges), IdSet(routers), SeedId(rank, routers, edges), Seriated(rank, routers, edges))
    ensures Outdone(Tie(routers, edges), Seriated(rank, routers, edges).linked, Seriated(rank, routers, edges).left)
  {
    hide Grow, Without, Firsts, Seed, Bond, Joined, Bonded, Cut, Outdone, StrictOrder, TextLt;
    var ids, w, seed := IdSet(routers), Tie(routers, edges), SeedId(rank, routers, edges);
    var c, all := Seriated(rank, routers, edges), Firsts(Map(IdOf(), routers));
    SeedIsRouter(routers, Seed(rank, ids, routers, edges));
    ChainFollowsEvidence(rank, routers, edges);
    TextOrder();
    TieSymmetric(routers, edges);
    WithoutCount(seed, all);
    GrowConserves(TextLt, w, [seed], Without(seed, all));
    SeedAlone(routers, edges, seed);
    GrowFinishes(TextLt, w, ids, seed, [seed], Without(seed, all));
    GrowOutdoes(TextLt, w, [seed], Without(seed, all));
    assert multiset(c.linked) + multiset(c.left) == multiset(all);
    SplitDistinct(c.linked, c.left, all);
  }

  lemma SplitDistinct(a: seq<string>, b: seq<string>, all: seq<string>)
    requires multiset(a) + multiset(b) == multiset(all) && Distinct(all)
    ensures Distinct(a) && (forall x :: x in a ==> x !in b) && (forall x :: x in a || x in b <==> x in all)
  {
    assert multiset(a + b) == multiset(all);
    PermutedDistinct(all, a + b);
    PermutedMembers(all, a + b);
    forall i, j | 0 <= i < j < |a| ensures a[i] != a[j] { assert (a + b)[i] != (a + b)[j]; }
    forall i, j | 0 <= i < |a| && 0 <= j < |b| ensures a[i] != b[j] { assert (a + b)[i] != (a + b)[|a| + j]; }
  }

  /** How many routers the chain holds: the first so many of the order. */
  function ChainLength(rank: string -> int, routers: seq<Device>, edges: seq<Edge>): nat
    requires |routers| > 2
  {
    |Seriated(rank, routers, edges).linked|
  }

  /** No router after the chain has evidence to one in it. */
  ghost predicate LeftoversUntied(rank: string -> int, routers: seq<Device>, edges: seq<Edge>)
    requires |routers| > 2
  {
    var r, n := OrderedRouters(rank, routers, edges), ChainLength(rank, routers, edges);
    forall i, j :: 0 <= i < n <= j < |r| ==> Tie(routers, edges)(r[i].id, r[j].id) <= 0
  }

  lemma {:induction false} IdMapIds(devices: seq<Device>)
    ensures forall id :: id in IdMap(devices) ==> IdMap(devices)[id].id == id
  {
    if devices != [] { IdMapIds(devices[..|devices| - 1]); }
  }

  /** The order by identifier: the chain, then those left over in some order. */
  lemma OrderIds(rank: string -> int, routers: seq<Device>, edges: seq<Edge>)
    requires |routers| > 2
    ensures
      var r, c := OrderedRouters(rank, routers, edges), Seriated(rank, routers, edges);
      && |r| == |c.linked| + |c.left|
      && (forall i :: 0 <= i < |c.linked| ==> r[i].id == c.linked[i])
      && (forall j :: |c.linked| <= j < |r| ==> r[j].id in c.left)
      && (forall x :: x in c.left ==> exists j :: |c.linked| <= j < |r| && r[j].id == x)
  {
    hide Seriated, IdMap, SortBy;
    var c, m := Seriated(rank, routers, edges), IdMap(routers);
    IdMapIds(routers);
    var rest := SortBy(ByName(rank), Named(m, c.left));
    var r := OrderedRouters(rank, routers, edges);
    assert r == Named(m, c.linked) + rest;
    forall j | |c.linked| <= j < |r| ensures r[j].id in c.left {
      assert r[j] == rest[j - |c.linked|] && r[j] in Named(m, c.left);
    }
    forall x | x in c.left ensures exists j :: |c.linked| <= j < |r| && r[j].id == x {
      var k :| 0 <= k < |c.left| && c.left[k] == x;
      var d := Named(m, c.left)[k];
      assert d in rest;
      var j :| 0 <= j < |rest| && rest[j] == d;
      assert r[|c.linked| + j] == d;
    }
  }

  lemma UntiedMeans(rank: string -> int, routers: seq<Device>, edges: seq<Edge>)
    requires |routers| > 2
    ensures LeftoversUntied(rank, routers, edges) <==> NothingDropped(Tie(routers, edges), Seriated(rank, routers, edges))
  {
    hide Seriated, OrderedRouters, Bond;
    OrderIds(rank, routers, edges);
    var r, c, w := OrderedRouters(rank, routers, edges), Seriated(rank, routers, edges), Tie(routers, edges);
    if LeftoversUntied(rank, routers, edges) {
      forall x, m | x in c.left && m in c.linked ensures w(m, x) <= 0 {
        var i :| 0 <= i < |c.linked| && c.linked[i] == m;
        var j :| |c.linked| <= j < |r| && r[j].id == x;
        assert w(r[i].id, r[j].id) <= 0;
      }
    }
  }

  /**
   When the routers after the chain have no evidence to it: exactly if the chain holds every router that
   evidence joins to its seed. That is so whenever none of these has a third partner, and without rings
   of evidence only then.
   */
  lemma LeftoversUntiedExactly(rank: string -> int, routers: seq<Device>, edges: seq<Edge>)
    requires |routers| > 2
    ensures
      var w, ids, seed := Tie(routers, edges), IdSet(routers), SeedId(rank, routers, edges);
      var untied := LeftoversUntied(rank, routers, edges);
      var paired := forall x :: x in ids && Joined(w, ids, seed, x) ==> |Partners(w, ids, x)| <= 2;
      && (untied <==> forall x :: x in ids && Joined(w, ids, seed, x) ==> x in Seriated(rank, routers, edges).linked)
      && (paired ==> untied)
      && (NoRing(w, ids) ==> (untied <==> paired))
  {
    hide Seriated, Joined, Finished, LeftoversUntied, NoRing, Partners, Symmetric, SeedId, IdSet, Bond;
    var w, ids, seed, c := Tie(routers, edges), IdSet(routers), SeedId(rank, routers, edges), Seriated(rank, routers, edges);
    UntiedMeans(rank, routers, edges);
    SeriatedFinishes(rank, routers, edges);
    TieSymmetric(routers, edges);
    NothingDroppedMeansWholeGroup(w, ids, seed, c);
    if forall x :: x in ids && Joined(w, ids, seed, x) ==> |Partners(w, ids, x)| <= 2 {
      TwoPartnersSuffice(w, ids, seed, c);
    }
    if NoRing(w, ids) { TwoPartnersExactly(w, ids, seed, c); }
  }

  /**
   Which evidence is dropped: that of a router inside the chain, to at least a third partner, and never
   evidence stronger than what ties it to either neighbour.
   */
  lemma DroppedEvidence(rank: string -> int, routers: seq<Device>, edges: seq<Edge>, i: nat, j: nat)
    requires |routers| > 2 && i < ChainLength(rank, routers, edges) <= j < |OrderedRouters(rank, routers, edges)|
    requires
      var r := OrderedRouters(rank, routers, edges);
      Tie(routers, edges)(r[i].id, r[j].id) > 0
    ensures
      var r, w := OrderedRouters(rank, routers, edges), Tie(routers, edges);
      && 0 < i < ChainLength(rank, routers, edges) - 1
      && |Partners(w, IdSet(routers), r[i].id)| >= 3
      && (w(r[i].id, r[j].id) <= w(r[i - 1].id, r[i].id) || w(r[i].id, r[j].id) <= w(r[i + 1].id, r[i].id))
  {
    hide Seriated, OrderedRouters, Bond, Finished, Partners, SeedId, IdSet;
    var r, w, c := OrderedRouters(rank, routers, edges), Tie(routers, edges), Seriated(rank, routers, edges);
    OrderIds(rank, routers, edges);
    SeriatedFinishes(rank, routers, edges);
    TieSymmetric(routers, edges);
    DroppedIsThird(w, IdSet(routers), SeedId(rank, routers, edges), c, i, r[j].id);
    assert w(r[j].id, c.linked[i]) == w(c.linked[i], r[j].id);
    assert c.linked[i - 1] == r[i - 1].id && c.linked[i + 1] == r[i + 1].id;
  }

  /* ---------------- a star of four routers ---------------- */

  function Spoke(id: string, lqi: int): Edge { Edge(id, "0x1", id, LatestNeighbor, High, false, Some(lqi), "") }

  /** Four routers of one mesh, and the neighbour links of the first to the three others. */
  const STAR: seq<Device> := [
    Device("0x1", "Hall", Router, false, Healthy, []), Device("0x2", "Attic", Router, false, Healthy, []),
    Device("0x3", "Cellar", Router, false, Healthy, []), Device("0x4", "Garage", Router, false, Healthy, [])]

  const SPOKES: seq<Edge> := [Spoke("0x2", 120), Spoke("0x3", 110), Spoke("0x4", 100)]

  lemma StarIds()
    ensures IdSet(STAR) == {"0x1", "0x2", "0x3", "0x4"}
  {
    var all := Map(IdOf(), STAR);
    assert all == ["0x1", "0x2", "0x3", "0x4"];
  }

  lemma SpokeWeight(e: Edge, a: string, b: string)
    requires e in SPOKES && a in IdSet(STAR) && b in IdSet(STAR)
    ensures
      ToKey(IdSet(STAR), PairKey(a, b))(e) ==
        if (a == "0x1" && b == e.target) || (a == e.target && b == "0x1") then e.lqi.value else 0
  {
    hide PairKey;
    StarIds();
    PairKeyMeaning("0x1", e.target, a, b);
  }

  lemma TotalOfThree(f: Edge -> int, a: Edge, b: Edge, c: Edge)
    ensures Total(f, [a, b, c]) == f(a) + f(b) + f(c)
  {
    TotalAppend(f, [a, b], c);
    TotalAppend(f, [a], b);
    assert [a, b] + [c] == [a, b, c] && [a] + [b] == [a, b];
  }

  /** Only the first router is tied to the others. */
  lemma StarTies(a: string, b: string)
    requires a in IdSet(STAR) && b in IdSet(STAR)
    ensures Tie(STAR, SPOKES)(a, b) > 0 <==> (a == "0x1") != (b == "0x1")
  {
    hide PairKey;
    var f := ToKey(IdSet(STAR), PairKey(a, b));
    TotalOfThree(f, SPOKES[0], SPOKES[1], SPOKES[2]);
    SpokeWeight(SPOKES[0], a, b);
    SpokeWeight(SPOKES[1], a, b);
    SpokeWeight(SPOKES[2], a, b);
    StarIds();
  }

  lemma StarHasNoRing()
    ensures NoRing(Tie(STAR, SPOKES), IdSet(STAR))
  {
    hide Bond, IdSet;
    forall p: seq<string> | |p| >= 3 && Distinct(p) && Path(Tie(STAR, SPOKES), IdSet(STAR), p)
      ensures Tie(STAR, SPOKES)(p[|p| - 1], p[0]) <= 0
    {
      StarTies(p[0], p[1]);
      StarTies(p[1], p[2]);
      StarTies(p[|p| - 1], p[0]);
    }
  }

  lemma StarJoins(a: string, b: string)
    requires a in IdSet(STAR) && b in IdSet(STAR)
    ensures Joined(Tie(STAR, SPOKES), IdSet(STAR), a, b)
  {
    hide Bond;
    StarIds();
    var w, ids := Tie(STAR, SPOKES), IdSet(STAR);
    SeedAlone(STAR, SPOKES, a);
    StarTies(a, "0x1");
    StarTies("0x1", b);
    if a != "0x1" { JoinOne(w, ids, a, a, "0x1"); }
    if b != "0x1" { JoinOne(w, ids, a, "0x1", b); }
  }

  lemma HubPartners()
    ensures Partners(Tie(STAR, SPOKES), IdSet(STAR), "0x1") == {"0x2", "0x3", "0x4"}
  {
    hide Bond;
    StarIds();
    forall b | b in IdSet(STAR) ensures Tie(STAR, SPOKES)("0x1", b) > 0 <==> b != "0x1" { StarTies("0x1", b); }
  }

  /** Of the star's three spokes the order keeps two together: a router after the chain has evidence to it. */
  lemma InnerEvidenceIsIgnored(rank: string -> int)
    ensures !LeftoversUntied(rank, STAR, SPOKES)
  {
    hide Tie, Partners, LeftoversUntied, IdSet, Seriated, NoRing, Joined, SeedId;
    StarIds();
    HubPartners();
    StarHasNoRing();
    SeedInIds(rank, STAR, SPOKES);
    StarJoins(SeedId(rank, STAR, SPOKES), "0x1");
    LeftoversUntiedExactly(rank, STAR, SPOKES);
  }

  lemma SeedInIds(rank: string -> int, routers: seq<Device>, edges: seq<Edge>)
    requires routers != []
    ensures SeedId(rank, routers, edges) in IdSet(routers)
  {
    hide Seed, Firsts;
    SeedIsRouter(routers, Seed(rank, IdSet(routers), routers, edges));
  }
}
