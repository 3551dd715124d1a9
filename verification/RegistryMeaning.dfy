/**
 What a registry read lists, field by field from the devices, and exactly when there is
 a list at all.
 */
module RegistryMeaning {
  import opened Basics
  import opened Sequences
  import opened EnrichmentTypes
  import opened RegistryReader

  /* ---------------- digits ---------------- */

  /** The value of a hexadecimal digit, in either letter case. */
  function Digit(c: char): int {
    if '0' <= c <= '9' then c as int - '0' as int
    else if 'a' <= c <= 'f' then c as int - 'a' as int + 10
    else if 'A' <= c <= 'F' then c as int - 'A' as int + 10
    else -1
  }

  /** Normalizing keeps the sixteen digits of an address: after `0x`, or with the colons left out. */
  lemma NormalKeepsDigits(s: string, k: nat)
    requires NormalizeIeee(s).Some? && k < 16
    ensures Digit(NormalizeIeee(s).value[2 + k]) == Digit(if |s| == 18 then s[2 + k] else s[k / 2 * 3 + k % 2])
    ensures 0 <= Digit(NormalizeIeee(s).value[2 + k]) < 16
  {
    var r := NormalizeIeee(s).value;
    if DirectIeee(s) {
      assert r[2 + k] == LowerAll(s[2..])[k] && s[2..][k] == s[2 + k];
      LowerKeepsDigit(s[2 + k]);
    } else {
      assert r[2 + k] == LowerAll(DropColons(s))[k];
      LowerKeepsDigit(DropColons(s)[k]);
    }
  }

  lemma LowerKeepsDigit(c: char)
    requires IsHex(c)
    ensures Digit(LowerHex(c)) == Digit(c)
  {
  }

  /* ---------------- one candidate ---------------- */

  function AreaIdOf(e: Entity): Option<string> { OptionalText(e.areaId, MAX_TEXT) }
  function EntityIdOf(e: Entity): Option<string> { OptionalText(e.entityId, MAX_TEXT) }

  /** The device's own usable area id or, without one, the only usable one among its entities. */
  ghost predicate AreaIs(d: Device, a: string) {
    var own := OptionalText(d.areaId, MAX_TEXT);
    if own.Some? then own.value == a
    else (exists e :: e in d.entities && AreaIdOf(e) == Some(a)) &&
         forall e :: e in d.entities && AreaIdOf(e).Some? ==> AreaIdOf(e) == Some(a)
  }

  /** The least usable entity id. */
  ghost predicate EntityIs(d: Device, id: string) {
    (exists e :: e in d.entities && EntityIdOf(e) == Some(id)) &&
    forall e :: e in d.entities && EntityIdOf(e).Some? ==> TextLe(id, EntityIdOf(e).value)
  }

  /**
   The fields of the candidate a device becomes: the user's name goes before the original one, which is kept
   beside it, and an area counts only if it is registered.
   */
  ghost predicate Describes(d: Device, areas: Areas, c: Candidate) {
    && Extract(d) == Exact(c.ieee) && OptionalText(d.id, MAX_TEXT) == Some(c.haDeviceId)
    && c.originalName == OptionalText(d.name, MAX_TEXT)
    && c.haDeviceName == (if OptionalText(d.nameByUser, MAX_TEXT).Some? then OptionalText(d.nameByUser, MAX_TEXT)
                          else OptionalText(d.name, MAX_TEXT))
    && (forall a :: c.areaId == Some(a) <==> AreaIs(d, a) && a in areas)
    && c.areaName == (if c.areaId.Some? && c.areaId.value in areas then OptionalText(areas[c.areaId.value], MAX_TEXT) else None)
    && (forall id :: c.entityId == Some(id) <==> EntityIs(d, id))
  }

  lemma {:induction false} PresentOf<S(!new)>(f: S -> Option<string>, s: seq<S>)
    ensures forall a :: a in Present(Map(f, s)) <==> exists x :: x in s && f(x) == Some(a)
  {
    PresentMembers(Map(f, s));
    forall a ensures Some(a) in Map(f, s) <==> exists x :: x in s && f(x) == Some(a) {
      if Some(a) in Map(f, s) {
        var i :| 0 <= i < |s| && Map(f, s)[i] == Some(a);
        assert s[i] in s && f(s[i]) == Some(a);
      }
      if x :| x in s && f(x) == Some(a) {
        var i :| 0 <= i < |s| && s[i] == x;
        assert Map(f, s)[i] == Some(a);
      }
    }
  }

  lemma SharedArea(d: Device, a: string)
    requires OptionalText(d.areaId, MAX_TEXT).None?
    ensures
      var shared := Firsts(Present(Map((e: Entity) => OptionalText(e.areaId, MAX_TEXT), d.entities)));
      AreaIs(d, a) <==> |shared| == 1 && shared[0] == a
  {
    hide Firsts, OptionalText, Present;
    var f := (e: Entity) => OptionalText(e.areaId, MAX_TEXT);
    var all := Present(Map(f, d.entities));
    var shared := Firsts(all);
    PresentOf(f, d.entities);
    forall e: Entity ensures f(e) == AreaIdOf(e) {}
    if AreaIs(d, a) {
      assert a in shared;
      forall i | 0 <= i < |shared| ensures shared[i] == a {
        assert shared[i] in all;
        var e :| e in d.entities && f(e) == Some(shared[i]);
        assert AreaIdOf(e) == Some(shared[i]);
      }
      FirstsSize(shared, {a});
    }
    if |shared| == 1 && shared[0] == a {
      assert a in all;
      var e :| e in d.entities && f(e) == Some(a);
      assert AreaIdOf(e) == Some(a);
      forall e | e in d.entities && AreaIdOf(e).Some? ensures AreaIdOf(e) == Some(a) {
        assert f(e) == AreaIdOf(e);
        assert AreaIdOf(e).value in all;
        assert AreaIdOf(e).value in shared;
      }
    }
  }

  lemma AreaMeaning(d: Device, areas: Areas, a: string)
    ensures ResolvedArea(d, areas).0 == Some(a) <==> AreaIs(d, a) && a in areas
    ensures
      var r := ResolvedArea(d, areas);
      r.1 == if r.0.Some? && r.0.value in areas then OptionalText(areas[r.0.value], MAX_TEXT) else None
  {
    hide Firsts, OptionalText, Present;
    if OptionalText(d.areaId, MAX_TEXT).None? {
      SharedArea(d, a);
    }
  }

  lemma EntityMeaning(d: Device, id: string)
    ensures RepresentativeEntity(d) == Some(id) <==> EntityIs(d, id)
  {
    hide OptionalText, Present, SortBy, TextLe;
    var f := (e: Entity) => OptionalText(e.entityId, MAX_TEXT);
    forall e: Entity ensures f(e) == EntityIdOf(e) {}
    var all := Present(Map(f, d.entities));
    var ids := SortBy(TextLe, all);
    PresentOf(f, d.entities);
    TextLePreorder();
    SortBySorted(TextLe, all);
    if ids != [] {
      var first := ids[0];
      assert first in all;
      var e :| e in d.entities && f(e) == Some(first);
      assert EntityIdOf(e) == Some(first);
      forall e | e in d.entities && EntityIdOf(e).Some? ensures TextLe(first, EntityIdOf(e).value) {
        assert f(e) == EntityIdOf(e) && EntityIdOf(e).value in all && EntityIdOf(e).value in ids;
        var i :| 0 <= i < |ids| && ids[i] == EntityIdOf(e).value;
      }
      assert EntityIs(d, first);
    }
    if EntityIs(d, id) {
      var e :| e in d.entities && EntityIdOf(e) == Some(id);
      assert f(e) == Some(id) && id in all && id in ids;
    }
  }

  lemma CandidateMeaning(d: Device, areas: Areas, c: Candidate)
    requires Extract(d).Exact?
    ensures CandidateOf(d, areas, Extract(d).ieee) == Some(c) <==> Describes(d, areas, c)
  {
    hide Extract, OptionalText, ResolvedArea, RepresentativeEntity, AreaIs, EntityIs;
    forall a
      ensures ResolvedArea(d, areas).0 == Some(a) <==> AreaIs(d, a) && a in areas
      ensures RepresentativeEntity(d) == Some(a) <==> EntityIs(d, a)
    {
      AreaMeaning(d, areas, a);
      EntityMeaning(d, a);
    }
    AreaMeaning(d, areas, "");
    if Describes(d, areas, c) {
      SameOption(ResolvedArea(d, areas).0, c.areaId);
      SameOption(RepresentativeEntity(d), c.entityId);
    }
  }

  lemma SameOption(a: Option<string>, b: Option<string>)
    requires forall x :: a == Some(x) <==> b == Some(x)
    ensures a == b
  {
    if a.Some? { assert a == Some(a.value); }
    if b.Some? { assert b == Some(b.value); }
  }

  /* ---------------- the list ---------------- */

  lemma {:induction false} ReadLists(areas: Areas, devices: seq<Device>, c: Candidate)
    requires ReadDevices(areas, devices).Complete?
    ensures c in ReadDevices(areas, devices).candidates <==> exists d :: d in devices && Describes(d, areas, c)
  {
    hide Extract, CandidateOf, Describes;
    if devices != [] {
      var init, last := devices[..|devices| - 1], devices[|devices| - 1];
      assert devices == init + [last];
      ReadLists(areas, init, c);
      if Extract(last).Exact? { CandidateMeaning(last, areas, c); } else { NotDescribed(last, areas, c); }
    }
  }

  lemma NotDescribed(d: Device, areas: Areas, c: Candidate)
    requires !Extract(d).Exact?
    ensures !Describes(d, areas, c)
  {
  }

  /** Whether a read of these devices, in this order, goes through. */
  ghost predicate ReadsThrough(devices: seq<Device>) {
    forall i :: 0 <= i < |devices| && Extract(devices[i]).Exact? ==>
      OptionalText(devices[i].id, MAX_TEXT).Some? && |Filter(Addressed(), devices[..i + 1])| <= 5000
  }

  lemma ReadsInit(devices: seq<Device>)
    requires devices != []
    ensures
      var last := devices[|devices| - 1];
      ReadsThrough(devices) <==>
        && ReadsThrough(devices[..|devices| - 1])
        && (Extract(last).Exact? ==> OptionalText(last.id, MAX_TEXT).Some? && |Filter(Addressed(), devices)| <= 5000)
  {
    hide Extract, OptionalText, Filter;
    var init := devices[..|devices| - 1];
    assert devices[..|devices|] == devices;
    forall i | 0 <= i < |init| ensures init[i] == devices[i] && init[..i + 1] == devices[..i + 1] {}
  }

  lemma {:induction false} ReadsExactly(areas: Areas, devices: seq<Device>)
    ensures ReadDevices(areas, devices).Complete? <==> ReadsThrough(devices)
  {
    hide Extract, ReadDevice, CandidateOf, OptionalText;
    if devices != [] {
      var init, last := devices[..|devices| - 1], devices[|devices| - 1];
      ReadsExactly(areas, init);
      ReadsInit(devices);
      hide ReadsThrough;
      assert devices == init + [last];
      FilterAppend(Addressed(), init, last);
      ReadDevicesMeaning(areas, init);
      ReadsOne(areas, ReadDevices(areas, init), last);
    }
  }

  lemma ReadsOne(areas: Areas, before: Registry, d: Device)
    ensures
      ReadDevice(areas, before, d).Complete? <==>
        && before.Complete?
        && (Extract(d).Exact? ==>
              OptionalText(d.id, MAX_TEXT).Some? && |before.candidates| + 1 + before.ambiguous <= 5000)
  {
    hide Extract, OptionalText, ResolvedArea, RepresentativeEntity;
  }

  /**
   A read has a list exactly if there are at most twenty thousand devices, every device with one address has a
   usable id, and no such device is, in key order, past the five thousandth that shows an address source.
   */
  lemma AvailableExactly(devices: seq<Device>, areas: Areas)
    ensures Snapshot(devices, areas).Complete? <==> |devices| <= 20_000 && ReadsThrough(SortBy(KeyLe(), devices))
  {
    hide ReadDevices, SortBy, ReadsThrough;
    ReadsExactly(areas, SortBy(KeyLe(), devices));
  }

  /** The list holds exactly the candidates of the devices, by address and then by device id. */
  lemma ListedExactly(devices: seq<Device>, areas: Areas, c: Candidate)
    requires Snapshot(devices, areas).Complete?
    ensures c in Snapshot(devices, areas).candidates <==> exists d :: d in devices && Describes(d, areas, c)
  {
    hide ReadDevices, SortBy, Describes;
    ReadLists(areas, SortBy(KeyLe(), devices), c);
  }

  lemma ListedInOrder(devices: seq<Device>, areas: Areas, i: nat, j: nat)
    requires Snapshot(devices, areas).Complete? && i < j < |Snapshot(devices, areas).candidates|
    ensures
      var a, b := Snapshot(devices, areas).candidates[i], Snapshot(devices, areas).candidates[j];
      TextLe(a.ieee, b.ieee) && (a.ieee == b.ieee ==> TextLe(a.haDeviceId, b.haDeviceId))
  {
    hide ReadDevices, SortBy, TextLe;
    TextLePreorder();
    CandidateOrder();
    var candidates := ReadDevices(areas, SortBy(KeyLe(), devices)).candidates;
    SortBySorted(CandidateLe(), candidates);
    var sorted := SortBy(CandidateLe(), candidates);
    assert CandidateLe()(sorted[i], sorted[j]);
  }

  lemma CandidateOrder()
    ensures Preorder(CandidateLe())
  {
    hide TextLe;
    TextLePreorder();
  }
}
