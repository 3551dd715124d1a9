/**
 What the resolver's result says about its inputs, in the terms of the registry and
 the inventory alone: which device a candidate means, which rows are reported with
 which fields, and what the two counts count.
 */
module ResolverMeaning {
  import opened Basics
  import opened Sequences
  import opened EnrichmentTypes
  import opened Resolver
  import opened ResolverProperties

  /* ---------------- one that passes ---------------- */

  /** The `k`th is the only one that passes. */
  ghost predicate Only<T(!new)>(p: T -> bool, s: seq<T>, k: nat) {
    k < |s| && p(s[k]) && forall j :: 0 <= j < |s| && j != k ==> !p(s[j])
  }

  lemma {:induction false} OnlyFilter<T(!new)>(p: T -> bool, s: seq<T>, k: nat)
    requires Only(p, s, k)
    ensures Filter(p, s) == [s[k]]
  {
    var init := s[..|s| - 1];
    if k < |init| {
      assert Only(p, init, k);
      OnlyFilter(p, init, k);
    } else {
      FilterNone(p, init);
    }
  }

  lemma {:induction false} FilterOnly<T(!new)>(p: T -> bool, s: seq<T>) returns (k: nat)
    requires |Filter(p, s)| == 1
    ensures Only(p, s, k)
  {
    var init, last := s[..|s| - 1], s[|s| - 1];
    if p(last) {
      k := |init|;
      forall j | 0 <= j < |init| ensures !p(s[j]) {
        FilterMembers(p, init);
        assert Filter(p, init) == [];
        assert init[j] in init;
      }
    } else {
      k := FilterOnly(p, init);
      assert forall j :: 0 <= j < |init| ==> init[j] == s[j];
    }
  }

  lemma {:induction false} FilterFilter<T(!new)>(p: T -> bool, q: T -> bool, both: T -> bool, s: seq<T>)
    requires forall x :: both(x) == (p(x) && q(x))
    ensures Filter(q, Filter(p, s)) == Filter(both, s)
  {
    if s != [] {
      FilterFilter(p, q, both, s[..|s| - 1]);
      FilterAppend(q, Filter(p, s[..|s| - 1]), s[|s| - 1]);
    }
  }

  /* ---------------- which device a candidate means ---------------- */

  /** Nothing else in the inventory has this address. */
  ghost predicate AddressAlone(inv: seq<CoreDevice>, k: nat)
    requires k < |inv|
  {
    forall j :: 0 <= j < |inv| && j != k ==> inv[j].ieee != inv[k].ieee
  }

  /** Of all with its address this one alone has that name. */
  ghost predicate NameAlone(inv: seq<CoreDevice>, k: nat, name: string)
    requires k < |inv|
  {
    inv[k].friendlyName == name &&
    forall j :: 0 <= j < |inv| && j != k && inv[j].ieee == inv[k].ieee ==> inv[j].friendlyName != name
  }

  /** The candidate means the `k`th device: by its address alone, else by its address and original name. */
  ghost predicate Means(c: Candidate, inv: seq<CoreDevice>, k: nat) {
    && k < |inv| && inv[k].ieee == c.ieee
    && (AddressAlone(inv, k) || (c.originalName.Some? && NameAlone(inv, k, c.originalName.value)))
  }

  function Both(ieee: string, name: string): CoreDevice -> bool {
    (d: CoreDevice) => d.ieee == ieee && d.friendlyName == name
  }

  lemma SelectFinds(c: Candidate, inv: seq<CoreDevice>, k: nat)
    requires Means(c, inv, k)
    ensures Select(c, inv) == Some(inv[k])
  {
    var rows := Filter(OfIeee(c.ieee), inv);
    FilterMembers(OfIeee(c.ieee), inv);
    assert inv[k] in rows;
    if AddressAlone(inv, k) {
      OnlyFilter(OfIeee(c.ieee), inv, k);
    } else {
      var name := c.originalName.value;
      FilterFilter(OfIeee(c.ieee), Named(name), Both(c.ieee, name), inv);
      OnlyFilter(Both(c.ieee, name), inv, k);
      if |rows| == 1 {
        var j := FilterOnly(OfIeee(c.ieee), inv);
      }
    }
  }

  /** The selection is the device the candidate means, and there is none where it means none. */
  lemma SelectMeaning(c: Candidate, inv: seq<CoreDevice>, d: CoreDevice)
    ensures Select(c, inv) == Some(d) <==> exists k: nat :: Means(c, inv, k) && inv[k] == d
  {
    if k: nat :| Means(c, inv, k) && inv[k] == d { SelectFinds(c, inv, k); }
    if Select(c, inv) == Some(d) {
      var k := SelectedIndex(c, inv);
      SelectFinds(c, inv, k);
    }
  }

  lemma SelectedIndex(c: Candidate, inv: seq<CoreDevice>) returns (k: nat)
    requires Select(c, inv).Some?
    ensures Means(c, inv, k)
  {
    var rows := Filter(OfIeee(c.ieee), inv);
    if |rows| == 1 {
      k := FilterOnly(OfIeee(c.ieee), inv);
    } else {
      var name := c.originalName.value;
      FilterFilter(OfIeee(c.ieee), Named(name), Both(c.ieee, name), inv);
      k := FilterOnly(Both(c.ieee, name), inv);
    }
  }

  lemma MeansOne(c: Candidate, inv: seq<CoreDevice>, j: nat, k: nat)
    requires Means(c, inv, j) && Means(c, inv, k)
    ensures inv[j] == inv[k]
  {
    SelectFinds(c, inv, j);
    SelectFinds(c, inv, k);
  }

  /* ---------------- which rows are reported ---------------- */

  ghost predicate MeansIdentity(c: Candidate, inv: seq<CoreDevice>, k: nat, id: Identity) {
    Means(c, inv, k) && DeviceIdentity(inv[k]) == id
  }

  /** The `i`th candidate means the `k`th device, which has this identity, and no other candidate means one that has. */
  ghost predicate MeansAlone(cands: seq<Candidate>, inv: seq<CoreDevice>, i: nat, k: nat, id: Identity) {
    && i < |cands| && MeansIdentity(cands[i], inv, k, id)
    && forall j: nat, l: nat :: j < |cands| && j != i ==> !MeansIdentity(cands[j], inv, l, id)
  }

  /** The row carries what the candidate says of itself. */
  predicate Posts(c: Candidate, r: Row) {
    && r.haDeviceId == c.haDeviceId && r.haDeviceName == c.haDeviceName && r.areaId == c.areaId
    && r.areaName == c.areaName && r.entityId == c.entityId
  }

  /** The row of a candidate that means its device alone: the device's identity with the candidate's fields. */
  ghost predicate SoleRow(cands: seq<Candidate>, inv: seq<CoreDevice>, i: nat, k: nat, r: Row) {
    MeansAlone(cands, inv, i, k, r.Id()) && Posts(cands[i], r)
  }

  /** Two rows name the same Home Assistant device, or the same entity. */
  predicate Conflicts(o: Row, r: Row) {
    o.haDeviceId == r.haDeviceId || (r.entityId.Some? && o.entityId == r.entityId)
  }

  ghost predicate Reported(cands: seq<Candidate>, inv: seq<CoreDevice>, i: nat, k: nat, r: Row) {
    && SoleRow(cands, inv, i, k, r)
    && forall o: Row, j: nat, l: nat :: o != r && SoleRow(cands, inv, j, l, o) ==> !Conflicts(o, r)
  }

  lemma ClaimsMeans(id: Identity, c: Candidate, inv: seq<CoreDevice>)
    ensures Claims(id, inv)(c) <==> exists k: nat :: MeansIdentity(c, inv, k, id)
  {
    if Claims(id, inv)(c) {
      SelectMeaning(c, inv, Select(c, inv).value);
      var k: nat :| Means(c, inv, k) && inv[k] == Select(c, inv).value;
      assert MeansIdentity(c, inv, k, id);
    }
    if k: nat :| MeansIdentity(c, inv, k, id) { SelectFinds(c, inv, k); }
  }

  lemma AloneClaims(cands: seq<Candidate>, inv: seq<CoreDevice>, i: nat, k: nat, id: Identity)
    requires MeansAlone(cands, inv, i, k, id)
    ensures Claimants(id, cands, inv) == [cands[i]]
  {
    hide MeansIdentity, Select;
    ClaimsMeans(id, cands[i], inv);
    forall j | 0 <= j < |cands| && j != i ensures !Claims(id, inv)(cands[j]) { ClaimsMeans(id, cands[j], inv); }
    OnlyFilter(Claims(id, inv), cands, i);
  }

  lemma ClaimantAlone(id: Identity, cands: seq<Candidate>, inv: seq<CoreDevice>) returns (i: nat, k: nat)
    requires |Claimants(id, cands, inv)| == 1
    ensures MeansAlone(cands, inv, i, k, id) && Claimants(id, cands, inv) == [cands[i]]
  {
    hide MeansIdentity, Select;
    i := FilterOnly(Claims(id, inv), cands);
    OnlyFilter(Claims(id, inv), cands, i);
    ClaimsMeans(id, cands[i], inv);
    k :| MeansIdentity(cands[i], inv, k, id);
    forall j: nat, l: nat | j < |cands| && j != i ensures !MeansIdentity(cands[j], inv, l, id) {
      ClaimsMeans(id, cands[j], inv);
    }
  }

  lemma AloneMeans(cands: seq<Candidate>, inv: seq<CoreDevice>, i: nat, k: nat, id: Identity)
    requires MeansAlone(cands, inv, i, k, id)
    ensures i < |cands| && k < |inv| && DeviceIdentity(inv[k]) == id
  {
  }

  lemma PostedIs(cands: seq<Candidate>, inv: seq<CoreDevice>, i: nat, r: Row)
    requires i < |cands|
    ensures Posts(cands[i], r) <==> r == RowOf(r.Id(), cands[i])
  {
  }

  /** The rows before conflicts are dropped are those of candidates that mean their device alone. */
  lemma SoleMeaning(cands: seq<Candidate>, inv: seq<CoreDevice>, r: Row)
    ensures r in SoleRows(SortedIds(cands, inv), cands, inv) <==> exists i: nat, k: nat :: SoleRow(cands, inv, i, k, r)
  {
    hide MeansAlone, SortBy, Claimants, Firsts, SelectedIds, Posts;
    var id := r.Id();
    SoleRowsMeaning(SortedIds(cands, inv), cands, inv, r);
    UnselectedHasNoClaimants(id, cands, inv);
    if i: nat, k: nat :| SoleRow(cands, inv, i, k, r) {
      AloneMeans(cands, inv, i, k, id);
      AloneClaims(cands, inv, i, k, id);
      PostedIs(cands, inv, i, r);
    }
    if r in SoleRows(SortedIds(cands, inv), cands, inv) {
      var i, k := ClaimantAlone(id, cands, inv);
      AloneMeans(cands, inv, i, k, id);
      PostedIs(cands, inv, i, r);
      assert SoleRow(cands, inv, i, k, r);
    }
  }

  lemma SoleIfKept(cands: seq<Candidate>, ambiguous: nat, inv: seq<CoreDevice>, r: Row)
    requires r in Resolved(cands, ambiguous, inv).rows
    ensures r in SoleRows(SortedIds(cands, inv), cands, inv)
  {
    var sole := SoleRows(SortedIds(cands, inv), cands, inv);
    FilterMembers(Unconflicted(sole), sole);
  }

  lemma SoleRowClaims(cands: seq<Candidate>, inv: seq<CoreDevice>, i: nat, k: nat, r: Row)
    requires SoleRow(cands, inv, i, k, r)
    ensures exists c :: Claimants(r.Id(), cands, inv) == [c] && r == RowOf(r.Id(), c)
  {
    hide MeansAlone, Posts;
    AloneMeans(cands, inv, i, k, r.Id());
    AloneClaims(cands, inv, i, k, r.Id());
    PostedIs(cands, inv, i, r);
  }

  /** A row is reported exactly for a candidate that means its device alone, where no other such row is in conflict. */
  lemma RowsExactly(cands: seq<Candidate>, ambiguous: nat, inv: seq<CoreDevice>, r: Row)
    ensures r in Resolved(cands, ambiguous, inv).rows <==> exists i: nat, k: nat :: Reported(cands, inv, i, k, r)
  {
    hide SoleRow, SoleRows, SortedIds, Claimants;
    RowsMeaning(cands, ambiguous, inv, r);
    if r in Resolved(cands, ambiguous, inv).rows {
      SoleIfKept(cands, ambiguous, inv, r);
      SoleMeaning(cands, inv, r);
      var i: nat, k: nat :| SoleRow(cands, inv, i, k, r);
      forall o, j: nat, l: nat | o != r && SoleRow(cands, inv, j, l, o) ensures !Conflicts(o, r) { SoleMeaning(cands, inv, o); }
      assert Reported(cands, inv, i, k, r);
    }
    if i: nat, k: nat :| Reported(cands, inv, i, k, r) {
      SoleRowClaims(cands, inv, i, k, r);
      forall o | o in SoleRows(SortedIds(cands, inv), cands, inv) && o != r ensures !Conflicts(o, r) {
        SoleMeaning(cands, inv, o);
      }
    }
  }

  /* ---------------- what is counted ---------------- */

  /** Some device of the inventory has the candidate's address. */
  ghost predicate AddressKnown(inv: seq<CoreDevice>, c: Candidate) { exists k :: 0 <= k < |inv| && inv[k].ieee == c.ieee }

  ghost predicate HasRow(cands: seq<Candidate>, inv: seq<CoreDevice>, i: nat) {
    exists k: nat, r: Row :: Reported(cands, inv, i, k, r)
  }

  /** The candidates whose address the inventory does not know. */
  ghost function Unknowns(cands: seq<Candidate>, inv: seq<CoreDevice>): set<nat> {
    set i: nat | i < |cands| && !AddressKnown(inv, cands[i])
  }

  /** The candidates whose address is known, and that have no row. */
  ghost function Unsettled(cands: seq<Candidate>, inv: seq<CoreDevice>): set<nat> {
    set i: nat | i < |cands| && AddressKnown(inv, cands[i]) && !HasRow(cands, inv, i)
  }

  ghost function Settled(cands: seq<Candidate>, inv: seq<CoreDevice>): set<nat> {
    set i: nat | i < |cands| && HasRow(cands, inv, i)
  }

  lemma {:induction false} CountByIndex(p: Candidate -> bool, cands: seq<Candidate>, s: set<nat>)
    requires forall i: nat :: i in s <==> i < |cands| && p(cands[i])
    ensures |Filter(p, cands)| == |s|
  {
    if cands == [] {
      assert s == {};
    } else {
      var n: nat := |cands| - 1;
      CountByIndex(p, cands[..n], s - {n});
      assert s == (s - {n}) + if p(cands[n]) then {n} else {};
    }
  }

  lemma AbsentMeans(inv: seq<CoreDevice>, c: Candidate)
    ensures Absent(inv)(c) <==> !AddressKnown(inv, c)
  {
    FilterMembers(OfIeee(c.ieee), inv);
    if AddressKnown(inv, c) {
      var k :| 0 <= k < |inv| && inv[k].ieee == c.ieee;
      assert inv[k] in Filter(OfIeee(c.ieee), inv);
    } else {
      FilterNone(OfIeee(c.ieee), inv);
    }
  }

  /** Each row is that of one candidate, and each such candidate has one row. */
  lemma ReportedOnce(cands: seq<Candidate>, inv: seq<CoreDevice>, i: nat, k: nat, r: Row, j: nat, l: nat, o: Row)
    requires Reported(cands, inv, i, k, r) && Reported(cands, inv, j, l, o)
    ensures i == j <==> r == o
  {
    hide Means;
    if i == j {
      MeansOne(cands[i], inv, k, l);
    } else {
      assert r.Id() != o.Id();
    }
  }

  lemma ReportedIsKnown(cands: seq<Candidate>, inv: seq<CoreDevice>, i: nat, k: nat, r: Row)
    requires Reported(cands, inv, i, k, r)
    ensures i < |cands| && AddressKnown(inv, cands[i])
  {
  }

  /** The candidate a row is reported for. */
  ghost function Owner(cands: seq<Candidate>, inv: seq<CoreDevice>, r: Row): nat {
    if i: nat, k: nat :| Reported(cands, inv, i, k, r) then i else 0
  }

  lemma {:induction false} ImageSize(g: Row -> nat, rows: seq<Row>, s: set<nat>)
    requires forall i, j :: 0 <= i < j < |rows| ==> g(rows[i]) != g(rows[j])
    requires forall i: nat :: i in s <==> exists n :: 0 <= n < |rows| && g(rows[n]) == i
    ensures |s| == |rows|
    decreases |rows|
  {
    if rows == [] {
      assert s == {};
    } else {
      var init, last := rows[..|rows| - 1], g(rows[|rows| - 1]);
      forall i: nat | i in s - {last} ensures exists n :: 0 <= n < |init| && g(init[n]) == i {
        var n :| 0 <= n < |rows| && g(rows[n]) == i;
        assert g(init[n]) == i;
      }
      forall n | 0 <= n < |init| ensures g(init[n]) in s - {last} { assert g(rows[n]) == g(init[n]); }
      ImageSize(g, init, s - {last});
      assert s == (s - {last}) + {last};
    }
  }

  /** As many candidates have a row as there are rows. */
  lemma SettledSize(cands: seq<Candidate>, ambiguous: nat, inv: seq<CoreDevice>)
    ensures |Settled(cands, inv)| == |Resolved(cands, ambiguous, inv).rows|
  {
    hide Resolved, Reported;
    var rows := Resolved(cands, ambiguous, inv).rows;
    RowsUnique(cands, ambiguous, inv);
    var g := (r: Row) => Owner(cands, inv, r);
    forall n | 0 <= n < |rows| ensures exists k: nat :: Reported(cands, inv, g(rows[n]), k, rows[n]) {
      RowsExactly(cands, ambiguous, inv, rows[n]);
      var i: nat, k: nat :| Reported(cands, inv, i, k, rows[n]);
      OwnerIs(cands, inv, i, k, rows[n]);
      assert Reported(cands, inv, g(rows[n]), k, rows[n]);
    }
    forall i, j | 0 <= i < j < |rows| ensures g(rows[i]) != g(rows[j]) {
      var k: nat :| Reported(cands, inv, g(rows[i]), k, rows[i]);
      var l: nat :| Reported(cands, inv, g(rows[j]), l, rows[j]);
      ReportedOnce(cands, inv, g(rows[i]), k, rows[i], g(rows[j]), l, rows[j]);
      assert rows[i].Id() != rows[j].Id();
    }
    forall i: nat ensures i in Settled(cands, inv) <==> exists n :: 0 <= n < |rows| && g(rows[n]) == i {
      SettledOwner(cands, ambiguous, inv, i);
    }
    ImageSize(g, rows, Settled(cands, inv));
  }

  lemma SettledOwner(cands: seq<Candidate>, ambiguous: nat, inv: seq<CoreDevice>, i: nat)
    ensures
      var rows := Resolved(cands, ambiguous, inv).rows;
      i in Settled(cands, inv) <==> exists n :: 0 <= n < |rows| && Owner(cands, inv, rows[n]) == i
  {
    hide Resolved, Reported;
    var rows := Resolved(cands, ambiguous, inv).rows;
    if HasRow(cands, inv, i) {
      var k: nat, r: Row :| Reported(cands, inv, i, k, r);
      RowsExactly(cands, ambiguous, inv, r);
      var n :| 0 <= n < |rows| && rows[n] == r;
      OwnerIs(cands, inv, i, k, r);
    }
    if n :| 0 <= n < |rows| && Owner(cands, inv, rows[n]) == i {
      RowsExactly(cands, ambiguous, inv, rows[n]);
      var j: nat, k: nat :| Reported(cands, inv, j, k, rows[n]);
      OwnerIs(cands, inv, j, k, rows[n]);
      ReportedIsKnown(cands, inv, j, k, rows[n]);
    }
  }

  lemma OwnerIs(cands: seq<Candidate>, inv: seq<CoreDevice>, i: nat, k: nat, r: Row)
    requires Reported(cands, inv, i, k, r)
    ensures Owner(cands, inv, r) == i
  {
    hide Reported;
    var j, l: nat :| j == Owner(cands, inv, r) && Reported(cands, inv, j, l, r);
    ReportedOnce(cands, inv, i, k, r, j, l, r);
  }

  /**
   The two counts, from registry and inventory: unmatched are the candidates whose address is unknown;
   ambiguous are those the registry could not address and those with a known address and no row.
   */
  lemma CountsExactly(cands: seq<Candidate>, ambiguous: nat, inv: seq<CoreDevice>)
    ensures
      var r := Resolved(cands, ambiguous, inv);
      r.unmatched == |Unknowns(cands, inv)| && r.ambiguous == ambiguous + |Unsettled(cands, inv)|
  {
    hide Resolved, Reported, AddressKnown, Absent;
    var res := Resolved(cands, ambiguous, inv);
    forall i: nat | i < |cands| ensures Absent(inv)(cands[i]) <==> !AddressKnown(inv, cands[i]) { AbsentMeans(inv, cands[i]); }
    CountByIndex(Absent(inv), cands, Unknowns(cands, inv));
    UnmatchedIs(cands, ambiguous, inv);
    Conservation(cands, ambiguous, inv);
    forall i: nat | HasRow(cands, inv, i) ensures i < |cands| && AddressKnown(inv, cands[i]) {
      var k: nat, r: Row :| Reported(cands, inv, i, k, r);
      ReportedIsKnown(cands, inv, i, k, r);
    }
    SettledSize(cands, ambiguous, inv);
    ThreeParts(Unknowns(cands, inv), Unsettled(cands, inv), Settled(cands, inv), |cands|);
  }

  lemma UnmatchedIs(cands: seq<Candidate>, ambiguous: nat, inv: seq<CoreDevice>)
    ensures Resolved(cands, ambiguous, inv).unmatched == |Filter(Absent(inv), cands)|
  {
  }

  lemma ThreeParts(a: set<nat>, b: set<nat>, c: set<nat>, n: nat)
    requires a !! b && b !! c && a !! c && forall i: nat :: i in a || i in b || i in c <==> i < n
    ensures |a| + |b| + |c| == n
  {
    UpTo(a + b + c, n);
  }

  lemma {:induction false} UpTo(s: set<nat>, n: nat)
    requires forall i: nat :: i in s <==> i < n
    ensures |s| == n
  {
    if n == 0 {
      assert s == {};
    } else {
      UpTo(s - {n - 1}, n - 1);
      assert s == (s - {n - 1}) + {n - 1};
    }
  }
}
