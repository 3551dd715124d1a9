/**
 What the resolver promises: the result depends only on which candidates and
 inventory rows there are, display names are never identity evidence, every
 candidate is accounted for exactly once, and no identity, device or entity is
 claimed twice.
 */
module ResolverProperties {
  import opened Basics
  import opened Sequences
  import opened EnrichmentTypes
  import opened Resolver

  /* ---------------- order independence ---------------- */

  lemma SelectPermuted(c: Candidate, inv: seq<CoreDevice>, inv': seq<CoreDevice>)
    requires multiset(inv) == multiset(inv')
    ensures Select(c, inv) == Select(c, inv')
    ensures (Filter(OfIeee(c.ieee), inv) == []) == (Filter(OfIeee(c.ieee), inv') == [])
  {
    FilterPermuted(OfIeee(c.ieee), inv, inv');
    var rows, rows' := Filter(OfIeee(c.ieee), inv), Filter(OfIeee(c.ieee), inv');
    if |rows| == 1 {
      PermutedSingleton(rows, rows');
    } else if |rows| > 1 && c.originalName.Some? {
      var name := c.originalName.value;
      FilterPermuted(Named(name), rows, rows');
      if |Filter(Named(name), rows)| == 1 {
        PermutedSingleton(Filter(Named(name), rows), Filter(Named(name), rows'));
      }
    }
  }

  lemma ClaimantsPermuted(
    id: Identity, cands: seq<Candidate>, cands': seq<Candidate>, inv: seq<CoreDevice>, inv': seq<CoreDevice>)
    requires multiset(cands) == multiset(cands') && multiset(inv) == multiset(inv')
    ensures |Claimants(id, cands, inv)| == |Claimants(id, cands', inv')|
    ensures |Claimants(id, cands, inv)| == 1 ==> Claimants(id, cands, inv) == Claimants(id, cands', inv')
  {
    forall c | c in cands ensures Claims(id, inv)(c) == Claims(id, inv')(c) { SelectPermuted(c, inv, inv'); }
    PermutedMembers(cands, cands');
    FilterSameOn(Claims(id, inv), Claims(id, inv'), cands');
    FilterPermuted(Claims(id, inv), cands, cands');
    if |Claimants(id, cands, inv)| == 1 {
      PermutedSingleton(Claimants(id, cands, inv), Filter(Claims(id, inv), cands'));
    }
  }

  lemma {:induction false} SoleRowsPermuted(
    ids: seq<Identity>, cands: seq<Candidate>, cands': seq<Candidate>, inv: seq<CoreDevice>, inv': seq<CoreDevice>)
    requires multiset(cands) == multiset(cands') && multiset(inv) == multiset(inv')
    ensures SoleRows(ids, cands, inv) == SoleRows(ids, cands', inv')
    ensures Contested(ids, cands, inv) == Contested(ids, cands', inv')
  {
    if ids != [] {
      SoleRowsPermuted(ids[..|ids| - 1], cands, cands', inv, inv');
      ClaimantsPermuted(ids[|ids| - 1], cands, cands', inv, inv');
    }
  }

  lemma SortedIdsPermuted(
    cands: seq<Candidate>, cands': seq<Candidate>, inv: seq<CoreDevice>, inv': seq<CoreDevice>)
    requires multiset(cands) == multiset(cands') && multiset(inv) == multiset(inv')
    ensures SortedIds(cands, inv) == SortedIds(cands', inv')
  {
    var ids, ids' := SelectedIds(cands, inv), SelectedIds(cands', inv');
    forall id ensures id in ids <==> id in ids' {
      UnselectedHasNoClaimants(id, cands, inv);
      UnselectedHasNoClaimants(id, cands', inv');
      ClaimantsPermuted(id, cands, cands', inv, inv');
    }
    DistinctPermuted(Firsts(ids), Firsts(ids'));
    IdentityLePreorder();
    SortByPermuted(IdentityLe, Firsts(ids), Firsts(ids'));
  }

  /** Neither the order of the registry nor the order of the inventory changes the result. */
  lemma OrderIndependent(
    cands: seq<Candidate>, cands': seq<Candidate>, ambiguous: nat, inv: seq<CoreDevice>, inv': seq<CoreDevice>)
    requires multiset(cands) == multiset(cands') && multiset(inv) == multiset(inv')
    ensures Resolved(cands, ambiguous, inv) == Resolved(cands', ambiguous, inv')
  {
    SortedIdsPermuted(cands, cands', inv, inv');
    SoleRowsPermuted(SortedIds(cands, inv), cands, cands', inv, inv');
    forall c ensures Absent(inv)(c) == Absent(inv')(c) && Undecided(inv)(c) == Undecided(inv')(c) {
      SelectPermuted(c, inv, inv');
    }
    FilterSameOn(Absent(inv), Absent(inv'), cands');
    FilterSameOn(Undecided(inv), Undecided(inv'), cands');
    FilterPermuted(Absent(inv), cands, cands');
    FilterPermuted(Undecided(inv), cands, cands');
  }

  /* ---------------- display names ---------------- */

  function Nameless(c: Candidate): Candidate { c.(haDeviceName := None) }

  function NamelessRow(r: Row): Row { r.(haDeviceName := None) }

  /** Filtering and erasing commute when the condition ignores what is erased. */
  lemma {:induction false} FilterErased<T(!new)>(p: T -> bool, q: T -> bool, erase: T -> T, s: seq<T>)
    requires forall x :: x in s ==> p(x) == q(erase(x))
    ensures Filter(q, Map(erase, s)) == Map(erase, Filter(p, s))
  {
    if s == [] {
      assert Map(erase, s) == [];
      assert Filter(p, s) == [];
      assert Map(erase, Filter(p, s)) == [];
    } else {
      var init, last := s[..|s| - 1], s[|s| - 1];
      FilterErased(p, q, erase, init);
      assert Map(erase, s) == Map(erase, init) + [erase(last)];
      FilterAppend(q, Map(erase, init), erase(last));
      assert Map(erase, Filter(p, init) + [last]) == Map(erase, Filter(p, init)) + [erase(last)];
    }
  }

  lemma {:induction false} SelectedIdsErased(cands: seq<Candidate>, inv: seq<CoreDevice>)
    ensures SelectedIds(Map(Nameless, cands), inv) == SelectedIds(cands, inv)
  {
    if cands != [] {
      var init := cands[..|cands| - 1];
      SelectedIdsErased(init, inv);
      assert Map(Nameless, cands) == Map(Nameless, init) + [Nameless(cands[|cands| - 1])];
      assert Map(Nameless, cands)[..|cands| - 1] == Map(Nameless, init);
    }
  }

  lemma {:induction false} SoleRowsErased(ids: seq<Identity>, cands: seq<Candidate>, inv: seq<CoreDevice>)
    ensures SoleRows(ids, Map(Nameless, cands), inv) == Map(NamelessRow, SoleRows(ids, cands, inv))
    ensures Contested(ids, Map(Nameless, cands), inv) == Contested(ids, cands, inv)
  {
    if ids == [] {
      assert Map(NamelessRow, []) == [];
    } else {
      var init, id := ids[..|ids| - 1], ids[|ids| - 1];
      SoleRowsErased(init, cands, inv);
      FilterErased(Claims(id, inv), Claims(id, inv), Nameless, cands);
      var claimants := Claimants(id, cands, inv);
      assert Claimants(id, Map(Nameless, cands), inv) == Map(Nameless, claimants);
      var one: seq<Row> := if |claimants| == 1 then [RowOf(id, claimants[0])] else [];
      assert Map(NamelessRow, SoleRows(init, cands, inv) + one) ==
             Map(NamelessRow, SoleRows(init, cands, inv)) + Map(NamelessRow, one);
    }
  }

  /** Erasing every display name first or last gives the same resolution. */
  lemma NamesAreNotEvidence(cands: seq<Candidate>, ambiguous: nat, inv: seq<CoreDevice>)
    ensures
      var r := Resolved(cands, ambiguous, inv);
      Resolved(Map(Nameless, cands), ambiguous, inv) == r.(rows := Map(NamelessRow, r.rows))
  {
    var ids := SortedIds(cands, inv);
    var sole := SoleRows(ids, cands, inv);
    SelectedIdsErased(cands, inv);
    SoleRowsErased(ids, cands, inv);
    var sole' := Map(NamelessRow, sole);
    forall r | r in sole ensures Unconflicted(sole)(r) == Unconflicted(sole')(NamelessRow(r)) {
      FilterErased(OnDevice(r.haDeviceId), OnDevice(r.haDeviceId), NamelessRow, sole);
      if r.entityId.Some? {
        FilterErased(OnEntity(r.entityId.value), OnEntity(r.entityId.value), NamelessRow, sole);
      }
    }
    FilterErased(Unconflicted(sole), Unconflicted(sole'), NamelessRow, sole);
    FilterErased(Absent(inv), Absent(inv), Nameless, cands);
    FilterErased(Undecided(inv), Undecided(inv), Nameless, cands);
  }

  /** Two registries that differ only in display names resolve alike but for the names shown. */
  lemma RenameBlind(cands: seq<Candidate>, cands': seq<Candidate>, ambiguous: nat, inv: seq<CoreDevice>)
    requires |cands| == |cands'|
    requires forall i :: 0 <= i < |cands| ==> cands'[i] == cands[i].(haDeviceName := cands'[i].haDeviceName)
    ensures
      var r, r' := Resolved(cands, ambiguous, inv), Resolved(cands', ambiguous, inv);
      && r'.unmatched == r.unmatched && r'.ambiguous == r.ambiguous && |r'.rows| == |r.rows|
      && forall i :: 0 <= i < |r.rows| ==> r'.rows[i] == r.rows[i].(haDeviceName := r'.rows[i].haDeviceName)
  {
    NamesAreNotEvidence(cands, ambiguous, inv);
    NamesAreNotEvidence(cands', ambiguous, inv);
    assert Map(Nameless, cands) == Map(Nameless, cands');
    var r, r' := Resolved(cands, ambiguous, inv), Resolved(cands', ambiguous, inv);
    assert Map(NamelessRow, r.rows) == Map(NamelessRow, r'.rows);
    assert |r.rows| == |Map(NamelessRow, r.rows)| == |r'.rows|;
    forall i | 0 <= i < |r.rows| ensures r'.rows[i] == r.rows[i].(haDeviceName := r'.rows[i].haDeviceName) {
      assert Map(NamelessRow, r.rows)[i] == Map(NamelessRow, r'.rows)[i];
    }
  }

  /* ---------------- conservation ---------------- */

  function ClaimsOneOf(ids: seq<Identity>, inv: seq<CoreDevice>): Candidate -> bool {
    (c: Candidate) => Select(c, inv).Some? && DeviceIdentity(Select(c, inv).value) in ids
  }

  lemma {:induction false} ClaimantsPartition(ids: seq<Identity>, cands: seq<Candidate>, inv: seq<CoreDevice>)
    requires Distinct(ids)
    ensures |Filter(ClaimsOneOf(ids, inv), cands)| == |SoleRows(ids, cands, inv)| + Contested(ids, cands, inv)
  {
    if ids == [] {
      FilterNone(ClaimsOneOf(ids, inv), cands);
    } else {
      var init, id := ids[..|ids| - 1], ids[|ids| - 1];
      ClaimantsPartition(init, cands, inv);
      assert ids == init + [id];
      FilterSplit(ClaimsOneOf(init, inv), Claims(id, inv), ClaimsOneOf(ids, inv), cands);
    }
  }

  function Decided(inv: seq<CoreDevice>): Candidate -> bool { (c: Candidate) => Select(c, inv).Some? }

  function Present(inv: seq<CoreDevice>): Candidate -> bool {
    (c: Candidate) => Filter(OfIeee(c.ieee), inv) != []
  }

  function Every(): Candidate -> bool { (c: Candidate) => true }

  lemma ThreeWaySplit(cands: seq<Candidate>, inv: seq<CoreDevice>)
    ensures |cands| ==
            |Filter(Absent(inv), cands)| + |Filter(Undecided(inv), cands)| + |Filter(Decided(inv), cands)|
  {
    FilterSplit(Decided(inv), Undecided(inv), Present(inv), cands);
    FilterSplit(Absent(inv), Present(inv), Every(), cands);
    FilterAll(Every(), cands);
  }

  lemma DecidedAreClaimants(cands: seq<Candidate>, inv: seq<CoreDevice>)
    ensures Filter(Decided(inv), cands) == Filter(ClaimsOneOf(SortedIds(cands, inv), inv), cands)
  {
    var ids := SortedIds(cands, inv);
    forall c | c in cands ensures Decided(inv)(c) == ClaimsOneOf(ids, inv)(c) {
      if Decided(inv)(c) {
        var id := DeviceIdentity(Select(c, inv).value);
        UnselectedHasNoClaimants(id, cands, inv);
        FilterMembers(Claims(id, inv), cands);
        assert c in Claimants(id, cands, inv);
      }
    }
    FilterSameOn(Decided(inv), ClaimsOneOf(ids, inv), cands);
  }

  /** Every candidate is a row, unmatched or ambiguous, and never two of these. */
  lemma Conservation(cands: seq<Candidate>, ambiguous: nat, inv: seq<CoreDevice>)
    ensures
      var r := Resolved(cands, ambiguous, inv);
      |cands| + ambiguous == |r.rows| + r.unmatched + r.ambiguous
  {
    var ids := SortedIds(cands, inv);
    PermutedDistinct(Firsts(SelectedIds(cands, inv)), ids);
    ClaimantsPartition(ids, cands, inv);
    DecidedAreClaimants(cands, inv);
    ThreeWaySplit(cands, inv);
  }

  /* ---------------- uniqueness ---------------- */

  /** Strictly increasing identities, in the order the payload is sorted by. */
  ghost predicate Ascending(rows: seq<Row>) {
    forall i, j :: 0 <= i < j < |rows| ==> rows[i].Id() != rows[j].Id() && IdentityLe(rows[i].Id(), rows[j].Id())
  }

  ghost predicate UniqueDevices(rows: seq<Row>) {
    forall i, j :: 0 <= i < j < |rows| ==> rows[i].haDeviceId != rows[j].haDeviceId
  }

  ghost predicate UniqueEntities(rows: seq<Row>) {
    forall i, j :: 0 <= i < j < |rows| ==> rows[i].entityId.Some? ==> rows[i].entityId != rows[j].entityId
  }

  lemma {:induction false} SoleRowsAscending(ids: seq<Identity>, cands: seq<Candidate>, inv: seq<CoreDevice>)
    requires Distinct(ids) && Sorted(IdentityLe, ids)
    ensures Ascending(SoleRows(ids, cands, inv))
    ensures forall r :: r in SoleRows(ids, cands, inv) ==> r.Id() in ids
  {
    if ids != [] {
      var init := ids[..|ids| - 1];
      SoleRowsAscending(init, cands, inv);
      assert forall id :: id in init ==> id in ids;
      forall id | id in init ensures id != ids[|ids| - 1] && IdentityLe(id, ids[|ids| - 1]) {}
    }
  }

  lemma {:induction false} FilterAscending(p: Row -> bool, rows: seq<Row>)
    requires Ascending(rows)
    ensures Ascending(Filter(p, rows))
  {
    if rows != [] {
      var init := rows[..|rows| - 1];
      FilterAscending(p, init);
      FilterMembers(p, init);
      forall r | r in Filter(p, init)
        ensures r.Id() != rows[|rows| - 1].Id() && IdentityLe(r.Id(), rows[|rows| - 1].Id())
      {
        assert r in init;
      }
    }
  }

  /** A condition that keeps at most one of a larger sequence keeps at most one of a filtered one. */
  lemma {:induction false} FilterTwice(p: Row -> bool, q: Row -> bool, rows: seq<Row>)
    ensures |Filter(q, Filter(p, rows))| <= |Filter(q, rows)|
  {
    if rows != [] {
      var init, last := rows[..|rows| - 1], rows[|rows| - 1];
      FilterTwice(p, q, init);
      FilterAppend(q, Filter(p, init), last);
    }
  }

  lemma TwoKept(q: Row -> bool, rows: seq<Row>, i: nat, j: nat)
    requires i < j < |rows| && q(rows[i]) && q(rows[j])
    ensures |Filter(q, rows)| >= 2
  {
    var upTo := rows[..j];
    FilterMembers(q, upTo);
    assert upTo[i] in Filter(q, upTo);
    FilterAppend(q, upTo, rows[j]);
    FilterPrefix(q, upTo + [rows[j]], rows[j + 1..]);
    assert upTo + [rows[j]] + rows[j + 1..] == rows;
  }

  lemma {:induction false} FilterPrefix(q: Row -> bool, a: seq<Row>, b: seq<Row>)
    ensures |Filter(q, a)| <= |Filter(q, a + b)|
  {
    if b == [] {
      assert a + b == a;
    } else {
      FilterPrefix(q, a, b[..|b| - 1]);
      assert a + b == (a + b[..|b| - 1]) + [b[|b| - 1]];
      FilterAppend(q, a + b[..|b| - 1], b[|b| - 1]);
    }
  }

  /** No two resolved rows share an identity, a Home Assistant device or a representative entity. */
  lemma RowsUnique(cands: seq<Candidate>, ambiguous: nat, inv: seq<CoreDevice>)
    ensures
      var rows := Resolved(cands, ambiguous, inv).rows;
      Ascending(rows) && UniqueDevices(rows) && UniqueEntities(rows)
  {
    var ids := SortedIds(cands, inv);
    var sole := SoleRows(ids, cands, inv);
    var rows := Filter(Unconflicted(sole), sole);
    PermutedDistinct(Firsts(SelectedIds(cands, inv)), ids);
    IdentityLePreorder();
    SortBySorted(IdentityLe, Firsts(SelectedIds(cands, inv)));
    SoleRowsAscending(ids, cands, inv);
    FilterAscending(Unconflicted(sole), sole);
    FilterMembers(Unconflicted(sole), sole);
    forall i, j | 0 <= i < j < |rows|
      ensures rows[i].haDeviceId != rows[j].haDeviceId
      ensures rows[i].entityId.Some? ==> rows[i].entityId != rows[j].entityId
    {
      assert rows[i] in rows;
      var onDevice := OnDevice(rows[i].haDeviceId);
      FilterTwice(Unconflicted(sole), onDevice, sole);
      if rows[j].haDeviceId == rows[i].haDeviceId { TwoKept(onDevice, rows, i, j); }
      if rows[i].entityId.Some? {
        var onEntity := OnEntity(rows[i].entityId.value);
        FilterTwice(Unconflicted(sole), onEntity, sole);
        if rows[j].entityId == rows[i].entityId { TwoKept(onEntity, rows, i, j); }
      }
    }
  }

  /* ---------------- which rows there are ---------------- */

  lemma {:induction false} SoleRowsMeaning(ids: seq<Identity>, cands: seq<Candidate>, inv: seq<CoreDevice>, r: Row)
    ensures r in SoleRows(ids, cands, inv) <==>
            r.Id() in ids && exists c :: Claimants(r.Id(), cands, inv) == [c] && r == RowOf(r.Id(), c)
  {
    if ids != [] {
      var init, id := ids[..|ids| - 1], ids[|ids| - 1];
      assert ids == init + [id];
      SoleRowsMeaning(init, cands, inv, r);
      var claimants := Claimants(id, cands, inv);
      if |claimants| == 1 {
        assert claimants == [claimants[0]];
      }
    }
  }

  /**
   A row is reported exactly when one candidate alone selects its identity, and no other identity so
   selected shares its Home Assistant device or entity.
   */
  lemma RowsMeaning(cands: seq<Candidate>, ambiguous: nat, inv: seq<CoreDevice>, r: Row)
    ensures
      var sole := SoleRows(SortedIds(cands, inv), cands, inv);
      r in Resolved(cands, ambiguous, inv).rows <==>
        && (exists c :: Claimants(r.Id(), cands, inv) == [c] && r == RowOf(r.Id(), c))
        && (forall o :: o in sole && o != r ==>
              o.haDeviceId != r.haDeviceId && (r.entityId.Some? ==> o.entityId != r.entityId))
  {
    var ids := SortedIds(cands, inv);
    var sole := SoleRows(ids, cands, inv);
    FilterMembers(Unconflicted(sole), sole);
    SoleRowsMeaning(ids, cands, inv, r);
    UnselectedHasNoClaimants(r.Id(), cands, inv);
    PermutedDistinct(Firsts(SelectedIds(cands, inv)), ids);
    IdentityLePreorder();
    SortBySorted(IdentityLe, Firsts(SelectedIds(cands, inv)));
    SoleRowsAscending(ids, cands, inv);
    if r in sole {
      AloneMeaning(OnDevice(r.haDeviceId), sole, r);
      if r.entityId.Some? { AloneMeaning(OnEntity(r.entityId.value), sole, r); }
    }
  }

  lemma AloneMeaning(q: Row -> bool, rows: seq<Row>, r: Row)
    requires r in rows && q(r) && Ascending(rows)
    ensures |Filter(q, rows)| == 1 <==> forall o :: o in rows && o != r ==> !q(o)
  {
    var kept := Filter(q, rows);
    FilterMembers(q, rows);
    FilterAscending(q, rows);
    assert r in kept;
    if |kept| == 1 {
      assert kept[0] == r;
    } else {
      assert |kept| >= 2 && kept[0].Id() != kept[1].Id();
      assert kept[0] in kept && kept[1] in kept;
    }
  }
}
