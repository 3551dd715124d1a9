/**
 Reading the Home Assistant registries: one address per device, or none, and one
 complete list of candidates, or none. Everything a later step takes for granted
 about a registry is established here.
 */
module RegistryReader {
  import opened Basics
  import opened Sequences
  import opened EnrichmentTypes
  import opened Resolver
  import opened ResolverProperties
  import opened CoreRequest

  const MAX_REGISTRY_DEVICES := 20_000

  /** An identifier domain after trimming and lower-casing; a malformed pair counts as `OtherDomain`. */
  datatype Domain = Zha | Zigbee | Zigbee2Mqtt | Mqtt | OtherDomain

  datatype Connection = Connection(zigbee: bool, value: Option<string>)
  datatype Identifier = Identifier(domain: Domain, value: Option<string>)
  datatype Entity = Entity(areaId: Option<string>, entityId: Option<string>)

  /** `key` is the text devices are sorted by; a field that is not text is `None`. */
  datatype Device = Device(
    key: string, id: Option<string>, name: Option<string>, nameByUser: Option<string>, areaId: Option<string>,
    connections: seq<Connection>, identifiers: seq<Identifier>, entities: seq<Entity>)

  /** The areas by id, each with its raw name. */
  type Areas = map<string, Option<string>>

  datatype Extraction = Missing | Invalid | Ambiguous | Exact(ieee: string)

  /* ---------------- one address per device ---------------- */

  predicate Separator(c: char) { c == '/' || c == '_' || c == '.' || c == ':' || c == '-' }

  predicate Alphanumeric(c: char) { '0' <= c <= '9' || 'a' <= c <= 'z' || 'A' <= c <= 'Z' }

  predicate SameLetter(c: char, lower: char) {
    c == lower || ('A' <= c <= 'Z' && c as int - 'A' as int + 'a' as int == lower as int)
  }

  /** The bridge's name, a separator, an address, and perhaps a separator and a suffix. */
  predicate MqttTopic(s: string) {
    && |s| >= 30
    && (forall i :: 0 <= i < 11 ==> SameLetter(s[i], "zigbee2mqtt"[i]))
    && Separator(s[11]) && DirectIeee(s[12..30])
    && (|s| > 30 ==>
          && Separator(s[30]) && 32 <= |s| <= 159 && Alphanumeric(s[31])
          && forall i :: 32 <= i < |s| ==> Alphanumeric(s[i]) || Separator(s[i]))
  }

  function MqttIeee(s: string): Option<string> { if MqttTopic(s) then NormalizeIeee(s[12..30]) else None }

  function Normal(value: Option<string>): Option<string> { if value.Some? then NormalizeIeee(value.value) else None }

  function ConnectionAddress(c: Connection): Option<string> { if c.zigbee then Normal(c.value) else None }

  function IdentifierAddress(i: Identifier): Option<string> {
    var direct := if i.domain.Zha? || i.domain.Zigbee? || i.domain.Zigbee2Mqtt? then Normal(i.value) else None;
    if direct.None? && (i.domain.Mqtt? || i.domain.Zigbee2Mqtt?) && i.value.Some? then MqttIeee(i.value.value) else direct
  }

  /** The addresses a device shows, in the order its fields list them. */
  function Addresses(d: Device): seq<string> {
    Present(Map(ConnectionAddress, d.connections)) + Present(Map(IdentifierAddress, d.identifiers))
  }

  function Present(values: seq<Option<string>>): seq<string> {
    if values == [] then []
    else
      var v := values[|values| - 1];
      Present(values[..|values| - 1]) + if v.Some? then [v.value] else []
  }

  predicate Supported(d: Device) {
    || (exists i :: 0 <= i < |d.connections| && d.connections[i].zigbee)
    || (exists i :: 0 <= i < |d.identifiers| && !d.identifiers[i].domain.OtherDomain?)
  }

  function Extract(d: Device): Extraction {
    var found := Firsts(Addresses(d));
    if |found| > 1 then Ambiguous
    else if |found| == 1 then Exact(found[0])
    else if Supported(d) then Invalid
    else Missing
  }

  lemma {:induction false} PresentMembers(values: seq<Option<string>>)
    ensures forall a :: a in Present(values) <==> Some(a) in values
  {
    if values != [] {
      PresentMembers(values[..|values| - 1]);
      assert values == values[..|values| - 1] + [values[|values| - 1]];
    }
  }

  /** The set a loop collects has as many members as the distinct addresses. */
  lemma {:induction false} SetSize(s: seq<string>, found: set<string>)
    requires forall a :: a in found <==> a in s
    ensures |found| == |Firsts(s)|
  {
    FirstsSize(Firsts(s), found);
  }

  lemma {:induction false} FirstsSize(s: seq<string>, found: set<string>)
    requires Distinct(s) && forall a :: a in found <==> a in s
    ensures |found| == |s|
  {
    if s == [] {
      assert found == {};
    } else {
      var last := s[|s| - 1];
      assert s == s[..|s| - 1] + [last];
      FirstsSize(s[..|s| - 1], found - {last});
      assert found == (found - {last}) + {last};
    }
  }

  /** Collects the addresses of a device and decides. */
  method ExtractIeeeAddress(d: Device) returns (e: Extraction)
    ensures e == Extract(d)
  {
    hide IdentifierAddress, Firsts, Present, NormalizeIeee;
    assert Present(Map(ConnectionAddress, d.connections[..0])) == [] && Present(Map(IdentifierAddress, d.identifiers[..0])) == [] by {
      NothingPresent(Map(ConnectionAddress, d.connections[..0]));
      NothingPresent(Map(IdentifierAddress, d.identifiers[..0]));
    }
    var candidates: set<string> := {};
    var sawSupportedSource := false;
    for i := 0 to |d.connections|
      invariant forall a :: a in candidates <==> a in Present(Map(ConnectionAddress, d.connections[..i]))
      invariant sawSupportedSource <==> exists j :: 0 <= j < i && d.connections[j].zigbee
    {
      OneMore(ConnectionAddress, d.connections, i);
      if !d.connections[i].zigbee { continue; }
      sawSupportedSource := true;
      var normalized := Normal(d.connections[i].value);
      if normalized.Some? { candidates := candidates + {normalized.value}; }
    }
    ghost var first := Present(Map(ConnectionAddress, d.connections));
    assert d.connections[..|d.connections|] == d.connections;
    ghost var seen := sawSupportedSource;
    for i := 0 to |d.identifiers|
      invariant forall a :: a in candidates <==> a in first || a in Present(Map(IdentifierAddress, d.identifiers[..i]))
      invariant sawSupportedSource <==> seen || exists j :: 0 <= j < i && !d.identifiers[j].domain.OtherDomain?
    {
      OneMore(IdentifierAddress, d.identifiers, i);
      var normalized := IdentifierAddress(d.identifiers[i]);
      if !d.identifiers[i].domain.OtherDomain? { sawSupportedSource := true; }
      if normalized.Some? { candidates := candidates + {normalized.value}; }
    }
    assert d.identifiers[..|d.identifiers|] == d.identifiers;
    SetSize(Addresses(d), candidates);
    if |candidates| > 1 { return Ambiguous; }
    if |candidates| == 1 {
      var a :| a in candidates;
      assert a in Firsts(Addresses(d));
      return Exact(a);
    }
    return if sawSupportedSource then Invalid else Missing;
  }

  lemma NothingPresent(values: seq<Option<string>>)
    requires values == []
    ensures Present(values) == []
  {
  }

  lemma OneMore<S>(f: S -> Option<string>, s: seq<S>, i: nat)
    requires i < |s|
    ensures Present(Map(f, s[..i + 1])) == Present(Map(f, s[..i])) + if f(s[i]).Some? then [f(s[i]).value] else []
  {
    assert Map(f, s[..i + 1]) == Map(f, s[..i]) + [f(s[i])];
    assert Map(f, s[..i + 1])[..i] == Map(f, s[..i]);
  }

  lemma SomeOther(s: seq<string>, a: string)
    requires Distinct(s) && |s| > 1
    ensures exists x :: x in s && x != a
  {
    assert s[0] in s && s[1] in s && s[0] != s[1];
  }

  /** One address is found exactly when every address the device shows is that one; it is canonical. */
  lemma ExactMeaning(d: Device, a: string)
    ensures Extract(d) == Exact(a) <==> Addresses(d) != [] && forall x :: x in Addresses(d) ==> x == a
    ensures Extract(d) == Exact(a) ==> CanonicalIeee(a)
  {
    hide Firsts;
    var all := Addresses(d);
    var found := Firsts(all);
    if all != [] && (forall x :: x in all ==> x == a) {
      assert all[0] in all;
      assert a in found;
      if |found| > 1 { SomeOther(found, a); }
    }
    if Extract(d) == Exact(a) {
      assert found == [a] && a in found && a in all;
      PresentMembers(Map(ConnectionAddress, d.connections));
      PresentMembers(Map(IdentifierAddress, d.identifiers));
    }
  }

  /** Listing connections and identifiers in another order finds the same. */
  lemma ExtractPermuted(d: Device, connections: seq<Connection>, identifiers: seq<Identifier>)
    requires multiset(connections) == multiset(d.connections) && multiset(identifiers) == multiset(d.identifiers)
    ensures Extract(d.(connections := connections, identifiers := identifiers)) == Extract(d)
  {
    hide Firsts, ConnectionAddress, IdentifierAddress;
    var e := d.(connections := connections, identifiers := identifiers);
    MapPermuted(ConnectionAddress, connections, d.connections);
    MapPermuted(IdentifierAddress, identifiers, d.identifiers);
    PermutedMembers(Map(ConnectionAddress, connections), Map(ConnectionAddress, d.connections));
    PermutedMembers(Map(IdentifierAddress, identifiers), Map(IdentifierAddress, d.identifiers));
    PresentMembers(Map(ConnectionAddress, connections));
    PresentMembers(Map(ConnectionAddress, d.connections));
    PresentMembers(Map(IdentifierAddress, identifiers));
    PresentMembers(Map(IdentifierAddress, d.identifiers));
    SupportedPermuted(d, e);
    var a, b := Firsts(Addresses(d)), Firsts(Addresses(e));
    DistinctPermuted(a, b);
    PermutedMembers(a, b);
    if |a| == 1 { PermutedSingleton(a, b); }
  }

  lemma SupportedPermuted(d: Device, e: Device)
    requires multiset(e.connections) == multiset(d.connections) && multiset(e.identifiers) == multiset(d.identifiers)
    ensures Supported(d) <==> Supported(e)
  {
    PermutedMembers(d.connections, e.connections);
    PermutedMembers(d.identifiers, e.identifiers);
    SupportedMeans(d);
    SupportedMeans(e);
  }

  lemma SupportedMeans(d: Device)
    ensures Supported(d) <==> (exists c :: c in d.connections && c.zigbee) ||
                              (exists i :: i in d.identifiers && !i.domain.OtherDomain?)
  {
  }

  /* ---------------- one complete list, or none ---------------- */

  /** The device's own area, or the one area its entities share; nothing if it is unknown. */
  function ResolvedArea(d: Device, areas: Areas): (Option<string>, Option<string>) {
    var own := OptionalText(d.areaId, MAX_TEXT);
    var shared := Firsts(Present(Map((e: Entity) => OptionalText(e.areaId, MAX_TEXT), d.entities)));
    var id := if own.Some? then own else if |shared| == 1 then Some(shared[0]) else None;
    if id.None? || id.value !in areas then (None, None) else (id, OptionalText(areas[id.value], MAX_TEXT))
  }

  /** The first entity id in text order. */
  function RepresentativeEntity(d: Device): Option<string> {
    var ids := SortBy(TextLe, Present(Map((e: Entity) => OptionalText(e.entityId, MAX_TEXT), d.entities)));
    if ids == [] then None else Some(ids[0])
  }

  /** The candidate a device with an exact address becomes; `None` when its id is unusable. */
  function CandidateOf(d: Device, areas: Areas, ieee: string): Option<Candidate> {
    var id, name, byUser := OptionalText(d.id, MAX_TEXT), OptionalText(d.name, MAX_TEXT), OptionalText(d.nameByUser, MAX_TEXT);
    var area := ResolvedArea(d, areas);
    if id.None? then None
    else
      Some(Candidate(ieee, id.value, if byUser.Some? then byUser else name, area.0, area.1, RepresentativeEntity(d), name))
  }

  /** The list so far: `None` once the read has failed or grown too long. */
  function ReadDevice(areas: Areas, before: Registry, d: Device): Registry {
    match before
    case Unavailable => Unavailable
    case Complete(candidates, ambiguous) =>
      match Extract(d)
      case Missing => before
      case Invalid => Complete(candidates, ambiguous + 1)
      case Ambiguous => Complete(candidates, ambiguous + 1)
      case Exact(ieee) =>
        var c := CandidateOf(d, areas, ieee);
        if c.None? || |candidates| + 1 + ambiguous > MAX_DEVICES then Unavailable
        else Complete(candidates + [c.value], ambiguous)
  }

  function ReadDevices(areas: Areas, devices: seq<Device>): Registry {
    if devices == [] then Complete([], 0)
    else ReadDevice(areas, ReadDevices(areas, devices[..|devices| - 1]), devices[|devices| - 1])
  }

  function KeyLe(): (Device, Device) -> bool { (a: Device, b: Device) => TextLe(a.key, b.key) }

  function CandidateLe(): (Candidate, Candidate) -> bool {
    (a: Candidate, b: Candidate) => if a.ieee == b.ieee then TextLe(a.haDeviceId, b.haDeviceId) else TextLe(a.ieee, b.ieee)
  }

  function Snapshot(devices: seq<Device>, areas: Areas): Registry {
    if |devices| > MAX_REGISTRY_DEVICES then Unavailable
    else
      match ReadDevices(areas, SortBy(KeyLe(), devices))
      case Unavailable => Unavailable
      case Complete(candidates, ambiguous) => Complete(SortBy(CandidateLe(), candidates), ambiguous)
  }

  /** Reads all devices in key order; any failure makes the whole source unavailable. */
  method BuildRegistrySnapshot(devices: seq<Device>, areas: Areas) returns (r: Registry)
    ensures r == Snapshot(devices, areas)
  {
    hide Extract, CandidateOf, SortBy;
    if |devices| > MAX_REGISTRY_DEVICES { return Unavailable; }
    var sorted := SortBy(KeyLe(), devices);
    var candidates, ambiguous := [], 0;
    for i := 0 to |sorted|
      invariant ReadDevices(areas, sorted[..i]) == Complete(candidates, ambiguous)
    {
      assert sorted[..i + 1][..i] == sorted[..i];
      var extraction := ExtractIeeeAddress(sorted[i]);
      if extraction.Missing? { continue; }
      if !extraction.Exact? {
        ambiguous := ambiguous + 1;
        continue;
      }
      var candidate := CandidateOf(sorted[i], areas, extraction.ieee);
      if candidate.None? || |candidates| + 1 + ambiguous > MAX_DEVICES {
        FailureStays(areas, sorted, i + 1);
        return Unavailable;
      }
      candidates := candidates + [candidate.value];
    }
    assert sorted[..|sorted|] == sorted;
    return Complete(SortBy(CandidateLe(), candidates), ambiguous);
  }

  lemma {:induction false} FailureStays(areas: Areas, devices: seq<Device>, n: nat)
    requires n <= |devices| && ReadDevices(areas, devices[..n]).Unavailable?
    ensures ReadDevices(areas, devices).Unavailable?
    decreases |devices|
  {
    hide ReadDevice;
    if n == |devices| {
      assert devices[..n] == devices;
    } else {
      var init := devices[..|devices| - 1];
      assert init[..n] == devices[..n];
      FailureStays(areas, init, n);
      StaysUnavailable(areas, devices[|devices| - 1]);
    }
  }

  lemma StaysUnavailable(areas: Areas, d: Device)
    ensures ReadDevice(areas, Unavailable, d) == Unavailable
  {
  }

  lemma {:induction false} PresentNormal(values: seq<Option<string>>)
    requires forall i :: 0 <= i < |values| ==> NormalOptional(values[i])
    ensures forall t :: t in Present(values) ==> NormalText(t, MAX_TEXT)
  {
    PresentMembers(values);
  }

  lemma CandidateWellFormed(d: Device, areas: Areas, ieee: string)
    requires CanonicalIeee(ieee) && CandidateOf(d, areas, ieee).Some?
    ensures WellFormedCandidate(CandidateOf(d, areas, ieee).value)
  {
    hide Firsts, Present, CanonicalIeee, NormalText, SortBy;
    PresentNormal(Map((e: Entity) => OptionalText(e.areaId, MAX_TEXT), d.entities));
    var ids := Present(Map((e: Entity) => OptionalText(e.entityId, MAX_TEXT), d.entities));
    PresentNormal(Map((e: Entity) => OptionalText(e.entityId, MAX_TEXT), d.entities));
    if SortBy(TextLe, ids) != [] { assert SortBy(TextLe, ids)[0] in SortBy(TextLe, ids); }
    var shared := Firsts(Present(Map((e: Entity) => OptionalText(e.areaId, MAX_TEXT), d.entities)));
    if |shared| == 1 { assert shared[0] in shared; }
  }

  /** Everything listed is well-formed, and nothing with an address is lost or counted twice. */
  lemma {:induction false} ReadDevicesMeaning(areas: Areas, devices: seq<Device>)
    ensures
      var r := ReadDevices(areas, devices);
      r.Complete? ==>
        && WellFormedRegistry(r)
        && |r.candidates| + r.ambiguous == |Filter(Addressed(), devices)|
        && |r.candidates| == |Filter(Exactly(), devices)|
  {
    hide Extract, CandidateOf, WellFormedCandidate;
    if devices != [] {
      var init, last := devices[..|devices| - 1], devices[|devices| - 1];
      assert devices == init + [last];
      ReadDevicesMeaning(areas, init);
      FilterAppend(Addressed(), init, last);
      FilterAppend(Exactly(), init, last);
      if Extract(last).Exact? {
        ExactMeaning(last, Extract(last).ieee);
        if CandidateOf(last, areas, Extract(last).ieee).Some? { CandidateWellFormed(last, areas, Extract(last).ieee); }
      }
    }
  }

  function Addressed(): Device -> bool { (d: Device) => !Extract(d).Missing? }
  function Exactly(): Device -> bool { (d: Device) => Extract(d).Exact? }

  /** A complete read is well-formed, and accounts for every device that shows an address source. */
  lemma SnapshotMeaning(devices: seq<Device>, areas: Areas)
    ensures
      var r := Snapshot(devices, areas);
      && WellFormedRegistry(r)
      && (r.Complete? ==>
            && |r.candidates| + r.ambiguous == |Filter(Addressed(), devices)|
            && |r.candidates| == |Filter(Exactly(), devices)|)
  {
    hide ReadDevices, WellFormedCandidate, Addressed, Exactly;
    var sorted := SortBy(KeyLe(), devices);
    ReadDevicesMeaning(areas, sorted);
    FilterPermuted(Addressed(), sorted, devices);
    FilterPermuted(Exactly(), sorted, devices);
  }

  /** The order in which the registry lists devices does not matter when their keys differ. */
  lemma SnapshotPermuted(devices: seq<Device>, devices': seq<Device>, areas: Areas)
    requires multiset(devices) == multiset(devices')
    requires forall a, b :: a in devices && b in devices && a.key == b.key ==> a == b
    ensures Snapshot(devices, areas) == Snapshot(devices', areas)
  {
    hide ReadDevices, SortBy, TextLe;
    TextLePreorder();
    PermutedMembers(devices, devices');
    SortByPermuted(KeyLe(), devices, devices');
  }

  /** From raw registries to Core: whatever is resolved from a complete read, the builder passes on and Core accepts. */
  lemma RegistryToCore(devices: seq<Device>, areas: Areas, inv: seq<CoreDevice>)
    requires Snapshot(devices, areas).Complete? && WellFormedInventory(inv)
    ensures
      var reg := Snapshot(devices, areas);
      var res := Resolved(reg.candidates, reg.ambiguous, inv);
      && RequestPayload(res.rows) == Ok(res.rows) && CoreAccepts(res.rows, res.rows)
      && |res.rows| + res.unmatched + res.ambiguous == |Filter(Addressed(), devices)|
  {
    hide Snapshot, Resolved, RequestPayload, CoreAccepts, WellFormedRegistry, WellFormedInventory, Addressed, Exactly;
    var reg := Snapshot(devices, areas);
    SnapshotMeaning(devices, areas);
    BuiltSnapshotAccepted(reg.candidates, reg.ambiguous, inv);
    Conservation(reg.candidates, reg.ambiguous, inv);
  }
}
