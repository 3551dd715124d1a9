/**
 Router seriation: a greedy chain that keeps strongly linked routers side by
 side. The chain part is generic in what identifies a router; `lt` orders the
 identifiers and `w` weighs the evidence between two of them.
 */
module MeshOrdering {
  import opened Basics
  import opened Sequences
  import opened MeshTypes
  import opened MeshSeriation

  /* ---------------- the strongest link to either end of the chain ---------------- */

  datatype Link<T> = Link(id: T, atTail: bool, weight: int)

  ghost predicate StrictOrder<T(!new)>(lt: (T, T) -> bool) {
    && (forall a :: !lt(a, a))
    && (forall a, b :: a == b || lt(a, b) || lt(b, a))
    && (forall a, b, c :: lt(a, b) && lt(b, c) ==> lt(a, c))
  }

  /** Heavier first, then the smaller identifier, then the tail before the head. */
  ghost predicate Stronger<T>(lt: (T, T) -> bool, a: Link<T>, b: Link<T>) {
    || a.weight > b.weight
    || (a.weight == b.weight && lt(a.id, b.id))
    || (a.weight == b.weight && a.id == b.id && a.atTail && !b.atTail)
  }

  lemma StrongerOrder<T(!new)>(lt: (T, T) -> bool, a: Link<T>, b: Link<T>, c: Link<T>)
    requires StrictOrder(lt)
    ensures a == b || Stronger(lt, a, b) || Stronger(lt, b, a)
    ensures !(Stronger(lt, a, b) && Stronger(lt, b, a))
    ensures Stronger(lt, a, b) && Stronger(lt, b, c) ==> Stronger(lt, a, c)
  {
  }

  function LinkTo<T>(w: (T, T) -> int, id: T, head: T, tail: T, atTail: bool): Link<T> {
    Link(id, atTail, w(id, if atTail then tail else head))
  }

  ghost predicate Offered<T>(w: (T, T) -> int, remaining: seq<T>, head: T, tail: T, l: Link<T>) {
    l.id in remaining && l.weight > 0 && l == LinkTo(w, l.id, head, tail, l.atTail)
  }

  /** `best` is the strongest positive link from `remaining` to an end, if there is one. */
  ghost predicate Choice<T(!new)>(
    lt: (T, T) -> bool, w: (T, T) -> int, remaining: seq<T>, head: T, tail: T, best: Option<Link<T>>)
  {
    match best
    case None => forall l :: !Offered(w, remaining, head, tail, l)
    case Some(b) =>
      && Offered(w, remaining, head, tail, b)
      && forall l :: Offered(w, remaining, head, tail, l) ==> l == b || Stronger(lt, b, l)
  }

  lemma ChoiceUnique<T(!new)>(
    lt: (T, T) -> bool, w: (T, T) -> int, w': (T, T) -> int, remaining: seq<T>, remaining': seq<T>,
    head: T, tail: T, best: Option<Link<T>>, best': Option<Link<T>>)
    requires StrictOrder(lt) && (forall x :: x in remaining <==> x in remaining')
    requires forall a, b :: w(a, b) == w'(a, b)
    requires Choice(lt, w, remaining, head, tail, best) && Choice(lt, w', remaining', head, tail, best')
    ensures best == best'
  {
    forall l ensures Offered(w, remaining, head, tail, l) == Offered(w', remaining', head, tail, l) {}
    if best.Some? && best'.Some? {
      StrongerOrder(lt, best.value, best'.value, best.value);
    }
  }

  predicate Beats<T(==)>(lt: (T, T) -> bool, best: Option<Link<T>>, l: Link<T>) {
    l.weight > 0 &&
    (best.None? || l.weight > best.value.weight || (l.weight == best.value.weight && lt(l.id, best.value.id)))
  }

  function Keep<T(==)>(lt: (T, T) -> bool, best: Option<Link<T>>, l: Link<T>): Option<Link<T>> {
    if Beats(lt, best, l) then Some(l) else best
  }

  function KeepEnds<T(==)>(
    lt: (T, T) -> bool, w: (T, T) -> int, best: Option<Link<T>>, id: T, head: T, tail: T): Option<Link<T>>
  {
    Keep(lt, Keep(lt, best, LinkTo(w, id, head, tail, true)), LinkTo(w, id, head, tail, false))
  }

  function Scan<T(==)>(lt: (T, T) -> bool, w: (T, T) -> int, remaining: seq<T>, head: T, tail: T)
    : (r: Option<Link<T>>)
    ensures r.Some? ==> r.value.id in remaining
  {
    if remaining == [] then None
    else
      KeepEnds(lt, w, Scan(lt, w, remaining[..|remaining| - 1], head, tail), remaining[|remaining| - 1], head, tail)
  }

  lemma ChoiceGrows<T(!new)>(
    lt: (T, T) -> bool, w: (T, T) -> int, remaining: seq<T>, id: T, head: T, tail: T, best: Option<Link<T>>)
    requires StrictOrder(lt) && Choice(lt, w, remaining, head, tail, best)
    ensures Choice(lt, w, remaining + [id], head, tail, KeepEnds(lt, w, best, id, head, tail))
  {
    hide Stronger, Beats;
    var t, h := LinkTo(w, id, head, tail, true), LinkTo(w, id, head, tail, false);
    forall l ensures Offered(w, remaining + [id], head, tail, l) <==>
                     Offered(w, remaining, head, tail, l) || (l.weight > 0 && (l == t || l == h)) {
      assert l.id in remaining + [id] <==> l.id in remaining || l.id == id;
    }
    var mid := Keep(lt, best, t);
    var last := Keep(lt, mid, h);
    KeepStronger(lt, w, remaining, head, tail, best, t, id);
    KeepMeaning(lt, mid, h);
    forall l | Offered(w, remaining + [id], head, tail, l)
      ensures last.Some? && (l == last.value || Stronger(lt, last.value, l))
    {
      if mid.Some? { StrongerOrder(lt, h, mid.value, l); }
      if best.Some? { StrongerOrder(lt, t, best.value, l); }
    }
  }

  /** A link replaces the best exactly when it is stronger, for a tail link that was not already outdone. */
  lemma KeepStronger<T(!new)>(
    lt: (T, T) -> bool, w: (T, T) -> int, remaining: seq<T>, head: T, tail: T, best: Option<Link<T>>, t: Link<T>, id: T)
    requires StrictOrder(lt) && Choice(lt, w, remaining, head, tail, best) && t == LinkTo(w, id, head, tail, true)
    ensures Beats(lt, best, t) <==> t.weight > 0 && (best.None? || Stronger(lt, t, best.value))
  {
    if best.Some? && t.weight == best.value.weight && t.id == best.value.id {
      assert Offered(w, remaining, head, tail, t);
      StrongerOrder(lt, t, best.value, t);
    }
  }

  lemma KeepMeaning<T(!new)>(lt: (T, T) -> bool, best: Option<Link<T>>, h: Link<T>)
    requires StrictOrder(lt) && !h.atTail
    ensures Beats(lt, best, h) <==> h.weight > 0 && (best.None? || Stronger(lt, h, best.value))
  {
  }

  lemma {:induction false} ScanChooses<T(!new)>(
    lt: (T, T) -> bool, w: (T, T) -> int, remaining: seq<T>, head: T, tail: T)
    requires StrictOrder(lt)
    ensures Choice(lt, w, remaining, head, tail, Scan(lt, w, remaining, head, tail))
  {
    hide Choice, KeepEnds;
    if remaining == [] {
      NothingToChoose(lt, w, remaining, head, tail);
    } else {
      var init := remaining[..|remaining| - 1];
      assert remaining == init + [remaining[|remaining| - 1]];
      ScanChooses(lt, w, init, head, tail);
      ChoiceGrows(lt, w, init, remaining[|remaining| - 1], head, tail, Scan(lt, w, init, head, tail));
    }
  }

  lemma NothingToChoose<T(!new)>(lt: (T, T) -> bool, w: (T, T) -> int, remaining: seq<T>, head: T, tail: T)
    requires remaining == []
    ensures Choice(lt, w, remaining, head, tail, None)
  {
  }

  /* ---------------- growing the chain ---------------- */

  function Other<T(==)>(x: T): T -> bool { (y: T) => y != x }

  function Without<T(==,!new)>(x: T, s: seq<T>): (r: seq<T>)
    ensures forall y :: y in r <==> y in s && y != x
    ensures x in s ==> |r| < |s|
  {
    FilterMembers(Other(x), s);
    WithoutShrinks(x, s);
    Filter(Other(x), s)
  }

  lemma {:induction false} WithoutShrinks<T(!new)>(x: T, s: seq<T>)
    ensures x in s ==> |Filter(Other(x), s)| < |s|
  {
    if s != [] {
      assert s == s[..|s| - 1] + [s[|s| - 1]];
      WithoutShrinks(x, s[..|s| - 1]);
    }
  }

  datatype Chain<T> = Chain(linked: seq<T>, left: seq<T>)

  function Attach<T>(chain: seq<T>, l: Link<T>): (r: seq<T>)
    ensures |r| == |chain| + 1
  {
    if l.atTail then chain + [l.id] else [l.id] + chain
  }

  function Grow<T(==,!new)>(lt: (T, T) -> bool, w: (T, T) -> int, chain: seq<T>, remaining: seq<T>): (r: Chain<T>)
    requires |chain| > 0
    ensures forall x :: x in r.linked || x in r.left ==> x in chain || x in remaining
    decreases |remaining|
  {
    var best := Scan(lt, w, remaining, chain[0], chain[|chain| - 1]);
    if best.None? then Chain(chain, remaining)
    else Grow(lt, w, Attach(chain, best.value), Without(best.value.id, remaining))
  }

  lemma {:induction false} WithoutCount<T(!new)>(x: T, s: seq<T>)
    requires Distinct(s) && x in s
    ensures multiset(Without(x, s)) == multiset(s) - multiset{x} && Distinct(Without(x, s))
  {
    hide Without;
    WithoutIs(x, s);
    forall y ensures multiset(Without(x, s))[y] == (multiset(s) - multiset{x})[y] {
      FilterCount(Other(x), s, y);
      DistinctCount(s, y);
    }
    forall i, j | 0 <= i < j < |Without(x, s)| ensures Without(x, s)[i] != Without(x, s)[j] {
      DistinctCount(s, Without(x, s)[i]);
      NoRepeat(Without(x, s), multiset(s), i, j);
    }
  }

  lemma WithoutIs<T(!new)>(x: T, s: seq<T>)
    ensures Without(x, s) == Filter(Other(x), s)
  {
  }

  lemma NoRepeat<T(!new)>(s: seq<T>, m: multiset<T>, i: nat, j: nat)
    requires multiset(s) <= m && i < j < |s| && m[s[i]] <= 1
    ensures s[i] != s[j]
  {
    assert s == s[..j] + [s[j]] + s[j + 1..];
    assert s[i] in s[..j];
    assert multiset(s)[s[j]] >= multiset(s[..j])[s[j]] + 1;
    assert s[i] in multiset(s[..j]);
  }

  /** Growing terminates, and neither loses nor repeats anything. */
  lemma {:induction false} GrowConserves<T(!new)>(
    lt: (T, T) -> bool, w: (T, T) -> int, chain: seq<T>, remaining: seq<T>)
    requires |chain| > 0 && Distinct(remaining)
    ensures
      var r := Grow(lt, w, chain, remaining);
      multiset(r.linked) + multiset(r.left) == multiset(chain) + multiset(remaining)
    decreases |remaining|
  {
    hide Scan, Without;
    var best := Scan(lt, w, remaining, chain[0], chain[|chain| - 1]);
    if best.Some? {
      var l := best.value;
      WithoutCount(l.id, remaining);
      GrowConserves(lt, w, Attach(chain, l), Without(l.id, remaining));
      assert multiset(Attach(chain, l)) == multiset(chain) + multiset{l.id};
    }
  }

  /** Evidence ties every two neighbours in the chain. */
  ghost predicate Bonded<T>(w: (T, T) -> int, chain: seq<T>) {
    forall i :: 0 < i < |chain| ==> w(chain[i - 1], chain[i]) > 0
  }

  /** What is left has no evidence to either end of the chain. */
  ghost predicate Cut<T>(w: (T, T) -> int, r: Chain<T>) {
    |r.linked| > 0 &&
    forall x :: x in r.left ==> w(x, r.linked[0]) <= 0 && w(x, r.linked[|r.linked| - 1]) <= 0
  }

  lemma AttachBonds<T(!new)>(w: (T, T) -> int, chain: seq<T>, remaining: seq<T>, l: Link<T>)
    requires |chain| > 0 && Bonded(w, chain) && Offered(w, remaining, chain[0], chain[|chain| - 1], l)
    requires forall a, b :: w(a, b) == w(b, a)
    ensures Bonded(w, Attach(chain, l))
  {
    assert w(l.id, chain[0]) == w(chain[0], l.id);
    assert w(l.id, chain[|chain| - 1]) == w(chain[|chain| - 1], l.id);
  }

  lemma {:induction false} GrowBonds<T(!new)>(
    lt: (T, T) -> bool, w: (T, T) -> int, chain: seq<T>, remaining: seq<T>)
    requires |chain| > 0 && Bonded(w, chain) && StrictOrder(lt)
    requires forall a, b :: w(a, b) == w(b, a)
    ensures Bonded(w, Grow(lt, w, chain, remaining).linked)
    ensures Cut(w, Grow(lt, w, chain, remaining))
    decreases |remaining|
  {
    hide Scan, Without, Stronger, Attach, Bonded;
    var head, tail := chain[0], chain[|chain| - 1];
    var best := Scan(lt, w, remaining, head, tail);
    ScanChooses(lt, w, remaining, head, tail);
    if best.Some? {
      AttachBonds(w, chain, remaining, best.value);
      GrowBonds(lt, w, Attach(chain, best.value), Without(best.value.id, remaining));
    } else {
      forall x | x in remaining ensures w(x, head) <= 0 && w(x, tail) <= 0 {
        assert !Offered(w, remaining, head, tail, LinkTo(w, x, head, tail, true));
        assert !Offered(w, remaining, head, tail, LinkTo(w, x, head, tail, false));
      }
    }
  }

  /** The chain is the same however the rest is listed, and the same identifiers are left. */
  lemma {:induction false} GrowPermuted<T(!new)>(
    lt: (T, T) -> bool, w: (T, T) -> int, w': (T, T) -> int, chain: seq<T>, remaining: seq<T>, remaining': seq<T>)
    requires |chain| > 0 && StrictOrder(lt) && multiset(remaining) == multiset(remaining')
    requires forall a, b :: w(a, b) == w'(a, b)
    ensures Grow(lt, w, chain, remaining).linked == Grow(lt, w', chain, remaining').linked
    ensures multiset(Grow(lt, w, chain, remaining).left) == multiset(Grow(lt, w', chain, remaining').left)
    decreases |remaining|
  {
    hide Scan, Without, Choice, StrictOrder;
    var head, tail := chain[0], chain[|chain| - 1];
    var best := Scan(lt, w, remaining, head, tail);
    ScanChooses(lt, w, remaining, head, tail);
    ScanChooses(lt, w', remaining', head, tail);
    PermutedMembers(remaining, remaining');
    ChoiceUnique(lt, w, w', remaining, remaining', head, tail, best, Scan(lt, w', remaining', head, tail));
    if best.Some? {
      WithoutIs(best.value.id, remaining);
      WithoutIs(best.value.id, remaining');
      FilterPermuted(Other(best.value.id), remaining, remaining');
      GrowPermuted(lt, w, w', Attach(chain, best.value), Without(best.value.id, remaining),
                   Without(best.value.id, remaining'));
    }
  }

  /* ---------------- routers ---------------- */

  function IdOf(): Device -> string { (d: Device) => d.id }

  ghost predicate UniqueIds(devices: seq<Device>) { Distinct(Map(IdOf(), devices)) }

  /** `rank` tells the ids of different devices apart, and no two devices share an id. */
  ghost predicate Told(rank: string -> int, devices: seq<Device>) {
    UniqueIds(devices) &&
    forall a, b :: a in devices && b in devices && rank(a.id) == rank(b.id) ==> a == b
  }

  function ById(rank: string -> int): (Device, Device) -> bool { (a: Device, b: Device) => rank(a.id) <= rank(b.id) }

  function ByName(rank: string -> int): (Device, Device) -> bool {
    (a: Device, b: Device) =>
      rank(a.name) < rank(b.name) || (rank(a.name) == rank(b.name) && rank(a.id) <= rank(b.id))
  }

  /** Most evidence first, then by id. */
  function ByTotal(rank: string -> int, ids: set<string>, edges: seq<Edge>): (Device, Device) -> bool {
    (a: Device, b: Device) =>
      var ta, tb := DeviceTotal(ids, edges, a.id), DeviceTotal(ids, edges, b.id);
      ta > tb || (ta == tb && rank(a.id) <= rank(b.id))
  }

  function Bond(ids: set<string>, edges: seq<Edge>): (string, string) -> int {
    (a: string, b: string) => PairWeight(ids, edges, PairKey(a, b))
  }

  /** The devices by id; the last of several with one id wins. */
  function IdMap(devices: seq<Device>): (m: map<string, Device>)
    ensures forall id :: id in m <==> id in Map(IdOf(), devices)
  {
    if devices == [] then map[]
    else
      var init, last := devices[..|devices| - 1], devices[|devices| - 1];
      assert devices == init + [last];
      assert Map(IdOf(), devices) == Map(IdOf(), init) + [last.id];
      IdMap(init)[last.id := last]
  }

  function Named(m: map<string, Device>, ids: seq<string>): (r: seq<Device>)
    requires forall id :: id in ids ==> id in m
    ensures |r| == |ids|
    ensures forall i :: 0 <= i < |ids| ==> r[i] == m[ids[i]]
  {
    seq(|ids|, i requires 0 <= i < |ids| => m[ids[i]])
  }

  lemma LastHasOwnId(devices: seq<Device>)
    requires devices != [] && UniqueIds(devices)
    ensures
      var init, last := devices[..|devices| - 1], devices[|devices| - 1];
      UniqueIds(init) && forall d :: d in init ==> d.id != last.id
  {
    var init, last := devices[..|devices| - 1], devices[|devices| - 1];
    assert Map(IdOf(), devices) == Map(IdOf(), init) + [last.id];
    UniqueInit(Map(IdOf(), init), last.id);
    forall d | d in init ensures d.id != last.id {
      var i :| 0 <= i < |init| && init[i] == d;
      assert Map(IdOf(), init)[i] == d.id;
    }
  }

  lemma {:induction false} IdMapMeaning(devices: seq<Device>)
    requires UniqueIds(devices)
    ensures forall d :: d in devices ==> d.id in IdMap(devices) && IdMap(devices)[d.id] == d
  {
    hide UniqueIds;
    if devices != [] {
      var init, last := devices[..|devices| - 1], devices[|devices| - 1];
      assert devices == init + [last];
      LastHasOwnId(devices);
      IdMapMeaning(init);
    }
  }

  lemma UniqueInit<T(!new)>(s: seq<T>, x: T)
    requires Distinct(s + [x])
    ensures Distinct(s) && x !in s
  {
    forall i, j | 0 <= i < j < |s| ensures s[i] != s[j] { assert (s + [x])[i] != (s + [x])[j]; }
    forall i | 0 <= i < |s| ensures s[i] != x { assert (s + [x])[i] != (s + [x])[|s|]; }
  }

  lemma NamedPermuted(m: map<string, Device>, s: seq<string>, t: seq<string>)
    requires forall id :: id in s ==> id in m
    requires multiset(s) == multiset(t)
    ensures forall id :: id in t ==> id in m
    ensures multiset(Named(m, s)) == multiset(Named(m, t))
  {
    PermutedMembers(s, t);
    var f := (id: string) => if id in m then m[id] else NOBODY;
    MapPermuted(f, s, t);
    assert Named(m, s) == Map(f, s) && Named(m, t) == Map(f, t);
  }

  const NOBODY := Device("", "", UnknownRole, false, UnknownHealth, [])

  /** The most connected router: the hub the chain starts from. */
  function Seed(rank: string -> int, ids: set<string>, routers: seq<Device>, edges: seq<Edge>): (r: Device)
    requires routers != []
    ensures r in routers
  {
    SortBy(ByTotal(rank, ids, edges), routers)[0]
  }

  /** No router has more evidence than the seed, and none with as much comes before it by id. */
  lemma SeedIsHub(rank: string -> int, ids: set<string>, routers: seq<Device>, edges: seq<Edge>, r: Device)
    requires r in routers
    ensures
      var seed := Seed(rank, ids, routers, edges);
      && DeviceTotal(ids, edges, r.id) <= DeviceTotal(ids, edges, seed.id)
      && (DeviceTotal(ids, edges, r.id) == DeviceTotal(ids, edges, seed.id) ==> rank(seed.id) <= rank(r.id))
  {
    hide DeviceTotal, SortBy;
    assert Preorder(ByTotal(rank, ids, edges));
    SortBySorted(ByTotal(rank, ids, edges), routers);
    var sorted := SortBy(ByTotal(rank, ids, edges), routers);
    var i :| 0 <= i < |sorted| && sorted[i] == r;
    assert i > 0 ==> ByTotal(rank, ids, edges)(sorted[0], sorted[i]);
  }

  function IdSet(routers: seq<Device>): set<string> { set id | id in Map(IdOf(), routers) }

  lemma SeedIsRouter(routers: seq<Device>, d: Device)
    requires d in routers
    ensures d.id in Firsts(Map(IdOf(), routers))
  {
    var i :| 0 <= i < |routers| && routers[i] == d;
    assert Map(IdOf(), routers)[i] == d.id;
  }

  function Seriated(rank: string -> int, routers: seq<Device>, edges: seq<Edge>): (r: Chain<string>)
    requires routers != []
    ensures forall id :: id in r.linked || id in r.left ==> id in IdMap(routers)
  {
    var ids := IdSet(routers);
    var seed := Seed(rank, ids, routers, edges);
    SeedIsRouter(routers, seed);
    Grow(TextLt, Bond(ids, edges), [seed.id], Without(seed.id, Firsts(Map(IdOf(), routers))))
  }

  /** The routers in band order: the chain, then the others by name. */
  function OrderedRouters(rank: string -> int, routers: seq<Device>, edges: seq<Edge>): seq<Device> {
    if |routers| <= 2 then SortBy(ById(rank), routers)
    else
      var c, m := Seriated(rank, routers, edges), IdMap(routers);
      Named(m, c.linked) + SortBy(ByName(rank), Named(m, c.left))
  }

  lemma TextOrder()
    ensures StrictOrder(TextLt)
  {
    TextLePreorder();
  }

  lemma FirstsOfDistinct(s: seq<string>)
    requires Distinct(s)
    ensures multiset(Firsts(s)) == multiset(s)
  {
    DistinctPermuted(Firsts(s), s);
  }

  /** Seriation rearranges the identifiers. */
  lemma SeriatedConserves(rank: string -> int, routers: seq<Device>, edges: seq<Edge>)
    requires routers != [] && UniqueIds(routers)
    ensures
      var c := Seriated(rank, routers, edges);
      multiset(c.linked + c.left) == multiset(Map(IdOf(), routers))
  {
    hide Grow, Without, Firsts, Seed, Bond;
    var all, ids := Map(IdOf(), routers), IdSet(routers);
    var seed := Seed(rank, ids, routers, edges);
    SeedIsRouter(routers, seed);
    FirstsOfDistinct(all);
    WithoutCount(seed.id, Firsts(all));
    GrowConserves(TextLt, Bond(ids, edges), [seed.id], Without(seed.id, Firsts(all)));
  }

  /** Router ordering neither loses, repeats nor invents a router. */
  lemma OrderingIsPermutation(rank: string -> int, routers: seq<Device>, edges: seq<Edge>)
    requires UniqueIds(routers)
    ensures multiset(OrderedRouters(rank, routers, edges)) == multiset(routers)
  {
    hide Seriated, SortBy, IdMap;
    if |routers| > 2 {
      var c, m := Seriated(rank, routers, edges), IdMap(routers);
      var all := Map(IdOf(), routers);
      SeriatedConserves(rank, routers, edges);
      NamedPermuted(m, c.linked + c.left, all);
      IdMapMeaning(routers);
      assert Named(m, all) == routers;
      assert Named(m, c.linked + c.left) == Named(m, c.linked) + Named(m, c.left);
    }
  }

  lemma PairKeySymmetric(a: string, b: string)
    ensures PairKey(a, b) == PairKey(b, a)
  {
    hide TextLe;
    TextLePreorder();
  }

  /** Chain neighbours are tied by evidence; a router left over has none to either end of the chain. */
  lemma ChainFollowsEvidence(rank: string -> int, routers: seq<Device>, edges: seq<Edge>)
    requires routers != []
    ensures Bonded(Bond(IdSet(routers), edges), Seriated(rank, routers, edges).linked)
    ensures Cut(Bond(IdSet(routers), edges), Seriated(rank, routers, edges))
  {
    hide Grow, Seed, Without, PairKey, TextLt;
    var ids := IdSet(routers);
    var w := Bond(ids, edges);
    TextOrder();
    forall a, b ensures w(a, b) == w(b, a) { PairKeySymmetric(a, b); }
    var seed := Seed(rank, ids, routers, edges);
    GrowBonds(TextLt, w, [seed.id], Without(seed.id, Firsts(Map(IdOf(), routers))));
  }

  /* ---------------- order independence ---------------- */

  lemma IdsPermuted(routers: seq<Device>, routers': seq<Device>)
    requires multiset(routers) == multiset(routers') && UniqueIds(routers)
    ensures multiset(Map(IdOf(), routers)) == multiset(Map(IdOf(), routers'))
    ensures UniqueIds(routers') && IdSet(routers) == IdSet(routers') && IdMap(routers) == IdMap(routers')
    ensures multiset(Firsts(Map(IdOf(), routers))) == multiset(Firsts(Map(IdOf(), routers')))
  {
    hide IdMap, Firsts;
    var all, all' := Map(IdOf(), routers), Map(IdOf(), routers');
    MapPermuted(IdOf(), routers, routers');
    PermutedMembers(all, all');
    PermutedMembers(routers, routers');
    PermutedDistinct(all, all');
    FirstsOfDistinct(all);
    FirstsOfDistinct(all');
    IdMapMeaning(routers);
    IdMapMeaning(routers');
    var m, m' := IdMap(routers), IdMap(routers');
    forall id | id in m ensures id in m' && m[id] == m'[id] {
      var i :| 0 <= i < |all| && all[i] == id;
      assert routers[i] in routers && routers[i].id == id;
    }
    forall id | id in m' ensures id in m {}
  }

  lemma DeviceTotalPermuted(ids: set<string>, edges: seq<Edge>, edges': seq<Edge>, v: string)
    requires multiset(edges) == multiset(edges')
    ensures DeviceTotal(ids, edges, v) == DeviceTotal(ids, edges', v)
  {
    TotalPermuted(Share(ids, v), edges, edges');
  }

  lemma ByTotalOrder(rank: string -> int, ids: set<string>, edges: seq<Edge>, routers: seq<Device>)
    requires Told(rank, routers)
    ensures Preorder(ByTotal(rank, ids, edges)) && TieFree(ByTotal(rank, ids, edges), routers)
  {
    hide DeviceTotal, Distinct;
  }

  lemma ByNameOrder(rank: string -> int, routers: seq<Device>)
    requires Told(rank, routers)
    ensures Preorder(ById(rank)) && TieFree(ById(rank), routers)
    ensures Preorder(ByName(rank)) && TieFree(ByName(rank), routers)
  {
  }

  lemma SeedPermuted(
    rank: string -> int, ids: set<string>, routers: seq<Device>, routers': seq<Device>, edges: seq<Edge>, edges': seq<Edge>)
    requires multiset(routers) == multiset(routers') && multiset(edges) == multiset(edges')
    requires Told(rank, routers) && routers != []
    ensures routers' != [] && Seed(rank, ids, routers, edges) == Seed(rank, ids, routers', edges')
  {
    hide DeviceTotal, SortBy, Told, Preorder, TieFree;
    PermutedMembers(routers, routers');
    ByTotalOrder(rank, ids, edges, routers);
    SortByPermuted(ByTotal(rank, ids, edges), routers, routers');
    forall a, b ensures ByTotal(rank, ids, edges)(a, b) == ByTotal(rank, ids, edges')(a, b) {
      DeviceTotalPermuted(ids, edges, edges', a.id);
      DeviceTotalPermuted(ids, edges, edges', b.id);
    }
    SortBySame(ByTotal(rank, ids, edges), ByTotal(rank, ids, edges'), routers');
  }

  lemma SeriatedPermuted(
    rank: string -> int, routers: seq<Device>, routers': seq<Device>, edges: seq<Edge>, edges': seq<Edge>)
    requires multiset(routers) == multiset(routers') && multiset(edges) == multiset(edges')
    requires Told(rank, routers) && routers != []
    ensures routers' != []
    ensures Seriated(rank, routers, edges).linked == Seriated(rank, routers', edges').linked
    ensures multiset(Seriated(rank, routers, edges).left) == multiset(Seriated(rank, routers', edges').left)
  {
    hide Grow, Seed, Without, PairKey, TextLt, Firsts, IdMap, PairWeight, IdSet;
    IdsPermuted(routers, routers');
    var ids := IdSet(routers);
    SeedPermuted(rank, ids, routers, routers', edges, edges');
    TextOrder();
    var w, w' := Bond(ids, edges), Bond(ids, edges');
    forall a, b ensures w(a, b) == w'(a, b) { PairWeightPermuted(ids, edges, edges', PairKey(a, b)); }
    var seed := Seed(rank, ids, routers, edges).id;
    var all, all' := Firsts(Map(IdOf(), routers)), Firsts(Map(IdOf(), routers'));
    WithoutIs(seed, all);
    WithoutIs(seed, all');
    FilterPermuted(Other(seed), all, all');
    GrowPermuted(TextLt, w, w', [seed], Without(seed, all), Without(seed, all'));
  }

  /** The router order depends on which routers and edges there are, not on how they are listed. */
  lemma OrderingPermuted(
    rank: string -> int, routers: seq<Device>, routers': seq<Device>, edges: seq<Edge>, edges': seq<Edge>)
    requires multiset(routers) == multiset(routers') && multiset(edges) == multiset(edges')
    requires Told(rank, routers)
    ensures OrderedRouters(rank, routers, edges) == OrderedRouters(rank, routers', edges')
  {
    hide SortBy, IdMap, Seriated, Preorder;
    PermutedMembers(routers, routers');
    ByNameOrder(rank, routers);
    if |routers| <= 2 {
      SortByPermuted(ById(rank), routers, routers');
    } else {
      IdsPermuted(routers, routers');
      SeriatedPermuted(rank, routers, routers', edges, edges');
      var m := IdMap(routers);
      var left, left' := Seriated(rank, routers, edges).left, Seriated(rank, routers', edges').left;
      NamedPermuted(m, left, left');
      NamedRouters(routers, left);
      SortByPermuted(ByName(rank), Named(m, left), Named(m, left'));
    }
  }

  lemma {:induction false} GrowSame<T(!new)>(
    lt: (T, T) -> bool, w: (T, T) -> int, w': (T, T) -> int, chain: seq<T>, remaining: seq<T>)
    requires |chain| > 0 && StrictOrder(lt)
    requires forall a, b :: w(a, b) == w'(a, b)
    ensures Grow(lt, w, chain, remaining) == Grow(lt, w', chain, remaining)
    decreases |remaining|
  {
    hide Scan, Without, Choice, StrictOrder;
    var head, tail := chain[0], chain[|chain| - 1];
    var best := Scan(lt, w, remaining, head, tail);
    ScanChooses(lt, w, remaining, head, tail);
    ScanChooses(lt, w', remaining, head, tail);
    ChoiceUnique(lt, w, w', remaining, remaining, head, tail, best, Scan(lt, w', remaining, head, tail));
    if best.Some? {
      GrowSame(lt, w, w', Attach(chain, best.value), Without(best.value.id, remaining));
    }
  }

  /** For one list of routers the order of the edges never matters, whatever their ids and names. */
  lemma OrderingSame(rank: string -> int, routers: seq<Device>, edges: seq<Edge>, edges': seq<Edge>)
    requires multiset(edges) == multiset(edges')
    ensures OrderedRouters(rank, routers, edges) == OrderedRouters(rank, routers, edges')
  {
    hide DeviceTotal, SortBy, Grow, Without, Firsts, IdMap, PairKey, TextLt;
    if |routers| > 2 {
      var ids := IdSet(routers);
      forall a, b ensures ByTotal(rank, ids, edges)(a, b) == ByTotal(rank, ids, edges')(a, b) {
        DeviceTotalPermuted(ids, edges, edges', a.id);
        DeviceTotalPermuted(ids, edges, edges', b.id);
      }
      SortBySame(ByTotal(rank, ids, edges), ByTotal(rank, ids, edges'), routers);
      TextOrder();
      var w, w' := Bond(ids, edges), Bond(ids, edges');
      forall a, b ensures w(a, b) == w'(a, b) { PairWeightPermuted(ids, edges, edges', PairKey(a, b)); }
      var seed := Seed(rank, ids, routers, edges).id;
      GrowSame(TextLt, w, w', [seed], Without(seed, Firsts(Map(IdOf(), routers))));
    }
  }

  lemma NamedRouters(routers: seq<Device>, ids: seq<string>)
    requires UniqueIds(routers) && forall id :: id in ids ==> id in IdMap(routers)
    ensures forall d :: d in Named(IdMap(routers), ids) ==> d in routers
  {
    hide IdMap;
    IdMapMeaning(routers);
    var all := Map(IdOf(), routers);
    forall id | id in ids ensures IdMap(routers)[id] in routers {
      var i :| 0 <= i < |all| && all[i] == id;
      assert routers[i] in routers;
    }
  }

  /* ---------------- the algorithm ---------------- */

  /** The strongest positive link from the unplaced routers to either end of the chain. */
  method FindLink(
    ghost ids: set<string>, ghost edges: seq<Edge>, weights: map<string, int>, remaining: seq<string>,
    head: string, tail: string)
    returns (best: Option<Link<string>>)
    requires Weighs(ids, edges, weights)
    ensures best == Scan(TextLt, Bond(ids, edges), remaining, head, tail)
  {
    hide Weighs, PairKey, TextLt;
    best := None;
    for i := 0 to |remaining|
      invariant best == Scan(TextLt, Bond(ids, edges), remaining[..i], head, tail)
    {
      var id := remaining[i];
      assert remaining[..i + 1][..i] == remaining[..i];
      ghost var before := best;
      var end := 0;
      while end < 2
        invariant 0 <= end <= 2
        invariant end == 0 ==> best == before
        invariant end == 1 ==> best == Keep(TextLt, before, LinkTo(Bond(ids, edges), id, head, tail, true))
        invariant end == 2 ==> best == KeepEnds(TextLt, Bond(ids, edges), before, id, head, tail)
      {
        var anchor := if end == 0 then tail else head;
        var key := PairKey(id, anchor);
        WeighsKeys(ids, edges, weights, key);
        var w := if key in weights then weights[key] else 0;
        if w > 0 && (best.None? || w > best.value.weight || (w == best.value.weight && TextLt(id, best.value.id))) {
          best := Some(Link(id, end == 0, w));
        }
        end := end + 1;
      }
    }
    assert remaining[..|remaining|] == remaining;
  }

  function ByTally(rank: string -> int, totals: map<string, int>): (Device, Device) -> bool {
    (a: Device, b: Device) =>
      var ta, tb := TotalIn(totals, a.id), TotalIn(totals, b.id);
      ta > tb || (ta == tb && rank(a.id) <= rank(b.id))
  }

  /** Orders the routers for the band. */
  method OrderRouters(rank: string -> int, routers: seq<Device>, edges: seq<Edge>) returns (r: seq<Device>)
    requires BarFree(edges)
    ensures r == OrderedRouters(rank, routers, edges)
  {
    hide Weighs, SortBy, Keys, IdMap, Firsts, BarFree, TotalIn, DeviceTotal;
    if |routers| <= 2 {
      return SortBy(ById(rank), routers);
    }
    var all := Map(IdOf(), routers);
    var ids := IdSet(routers);
    var weights, order := EvidencePairWeights(ids, edges);
    var totals := DeviceTotals(ids, edges, weights, order);
    SortBySame(ByTally(rank, totals), ByTotal(rank, ids, edges), routers);
    var seed := SortBy(ByTally(rank, totals), routers)[0];
    SeedIsRouter(routers, seed);
    var chain, remaining := [seed.id], Without(seed.id, Firsts(all));
    while remaining != []
      invariant |chain| > 0
      invariant Grow(TextLt, Bond(ids, edges), chain, remaining) == Seriated(rank, routers, edges)
      decreases |remaining|
    {
      var best := FindLink(ids, edges, weights, remaining, chain[0], chain[|chain| - 1]);
      if best.None? { break; }
      chain := Attach(chain, best.value);
      remaining := Without(best.value.id, remaining);
    }
    assert Seriated(rank, routers, edges) == Chain(chain, remaining);
    var byId := IdMap(routers);
    r := Named(byId, chain) + SortBy(ByName(rank), Named(byId, remaining));
  }
}
