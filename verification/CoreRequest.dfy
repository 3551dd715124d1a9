/**
 The request one snapshot becomes, the inventory it was resolved against, and
 the validator on the Core side that accepts or rejects it.
 */
module CoreRequest {
  import opened Basics
  import opened Sequences
  import opened EnrichmentTypes
  import opened Resolver
  import opened ResolverProperties

  datatype RequestError =
    | MissingText | MalformedIeee | TextTooLong | TooLarge
    | DuplicateIdentities | ConflictingDevices | ConflictingEntities

  /* ---------------- payload builder ---------------- */

  function ContractText(value: Option<string>): Result<Option<string>, RequestError> {
    if value.None? then Ok(None)
    else
      var s := Strip(value.value);
      if |s| > MAX_TEXT then Err(TextTooLong) else if s == "" then Ok(None) else Ok(Some(s))
  }

  function DeviceDict(r: Row): Result<Row, RequestError> {
    var networkId := OptionalText(Some(r.networkId), MAX_NETWORK_ID);
    if networkId.None? then Err(MissingText)
    else
      var rawIeee := OptionalText(Some(r.ieee), 18);
      if rawIeee.None? then Err(MissingText)
      else if !DirectIeee(rawIeee.value) then Err(MalformedIeee)
      else
        var haDeviceId := OptionalText(Some(r.haDeviceId), MAX_TEXT);
        if haDeviceId.None? then Err(MissingText)
        else
          var name, areaId := ContractText(r.haDeviceName), ContractText(r.areaId);
          var areaName, entityId := ContractText(r.areaName), ContractText(r.entityId);
          if name.Err? || areaId.Err? || areaName.Err? || entityId.Err? then Err(TextTooLong)
          else Ok(Row(networkId.value, "0x" + LowerAll(rawIeee.value[2..]), haDeviceId.value,
                      name.value, areaId.value, areaName.value, entityId.value))
  }

  function DeviceDicts(devices: seq<Row>): Result<seq<Row>, RequestError> {
    if devices == [] then Ok([])
    else
      var first := DeviceDict(devices[0]);
      if first.Err? then Err(first.error)
      else
        var rest := DeviceDicts(devices[1..]);
        if rest.Err? then Err(rest.error) else Ok([first.value] + rest.value)
  }

  function RowLe(): (Row, Row) -> bool { (a: Row, b: Row) => IdentityLe(a.Id(), b.Id()) }

  function RequestPayload(devices: seq<Row>): Result<seq<Row>, RequestError> {
    var dicts := DeviceDicts(devices);
    if dicts.Err? then Err(dicts.error)
    else
      var rows := SortBy(RowLe(), dicts.value);
      if |rows| > MAX_DEVICES then Err(TooLarge)
      else if |set r | r in rows :: r.Id()| != |rows| then Err(DuplicateIdentities)
      else if |set r | r in rows :: r.haDeviceId| != |rows| then Err(ConflictingDevices)
      else
        var entities := Filter(HasEntity(), rows);
        if |set r | r in entities :: r.entityId| != |entities| then Err(ConflictingEntities) else Ok(rows)
  }

  /* ---------------- Core validator ---------------- */

  ghost predicate UniqueIds(rows: seq<Row>) {
    forall i, j :: 0 <= i < j < |rows| ==> rows[i].Id() != rows[j].Id()
  }

  /** Identities, Home Assistant devices and entities each pairwise distinct. */
  ghost predicate Consistent(rows: seq<Row>) {
    UniqueIds(rows) && UniqueDevices(rows) && UniqueEntities(rows)
  }

  function Ids(rows: seq<Row>): set<Identity> { set r | r in rows :: r.Id() }

  function DeviceIds(rows: seq<Row>): set<string> { set r | r in rows :: r.haDeviceId }

  function EntityIds(rows: seq<Row>): set<string> { set r | r in rows && r.entityId.Some? :: r.entityId.value }

  lemma UniqueEntitiesAppend(rows: seq<Row>, r: Row)
    ensures UniqueEntities(rows + [r]) <==>
            UniqueEntities(rows) && (r.entityId.Some? ==> forall x :: x in rows ==> x.entityId != r.entityId)
  {
    var all := rows + [r];
    assert forall i :: 0 <= i < |rows| ==> all[i] == rows[i];
    if UniqueEntities(all) && r.entityId.Some? {
      forall x | x in rows ensures x.entityId != r.entityId {
        var k :| 0 <= k < |rows| && rows[k] == x;
        assert all[k] == x && all[|rows|] == r;
      }
    }
  }

  lemma ConsistentAppend(rows: seq<Row>, r: Row)
    ensures Consistent(rows + [r]) <==>
            && Consistent(rows)
            && r.Id() !in Ids(rows) && r.haDeviceId !in DeviceIds(rows)
            && (r.entityId.Some? ==> r.entityId.value !in EntityIds(rows))
    ensures Ids(rows + [r]) == Ids(rows) + {r.Id()}
    ensures DeviceIds(rows + [r]) == DeviceIds(rows) + {r.haDeviceId}
    ensures EntityIds(rows + [r]) == EntityIds(rows) + (if r.entityId.Some? then {r.entityId.value} else {})
  {
    var all := rows + [r];
    UniqueEntitiesAppend(rows, r);
    assert forall i :: 0 <= i < |rows| ==> all[i] == rows[i];
    if Consistent(all) {
      forall x | x in rows ensures x.Id() != r.Id() && x.haDeviceId != r.haDeviceId {
        var k :| 0 <= k < |rows| && rows[k] == x;
        assert all[k] == x && all[|rows|] == r;
      }
    }
  }

  lemma ConsistentPrefix(rows: seq<Row>, n: nat)
    requires n <= |rows| && Consistent(rows)
    ensures Consistent(rows[..n])
  {
  }

  /**
   The owner maps of Core's request validator. A device or entity is refused only when another identity
   owns it, which for distinct identities is any second use.
   */
  method CheckOwners(rows: seq<Row>) returns (accepted: bool)
    ensures accepted <==> Consistent(rows)
  {
    var seen: set<Identity> := {};
    var deviceOwners: map<string, Identity> := map[];
    var entityOwners: map<string, Identity> := map[];
    for i := 0 to |rows|
      invariant Consistent(rows[..i])
      invariant seen == Ids(rows[..i])
      invariant deviceOwners.Keys == DeviceIds(rows[..i])
      invariant entityOwners.Keys == EntityIds(rows[..i])
      invariant forall d :: d in deviceOwners ==> deviceOwners[d] in seen
      invariant forall e :: e in entityOwners ==> entityOwners[e] in seen
    {
      var row := rows[i];
      var id := row.Id();
      assert rows[..i + 1] == rows[..i] + [row];
      ConsistentAppend(rows[..i], row);
      if Consistent(rows) { ConsistentPrefix(rows, i + 1); }
      if id in seen { return false; }
      seen := seen + {id};
      if row.haDeviceId in deviceOwners && deviceOwners[row.haDeviceId] != id { return false; }
      deviceOwners := deviceOwners[row.haDeviceId := id];
      if row.entityId.Some? {
        var e := row.entityId.value;
        if e in entityOwners && entityOwners[e] != id { return false; }
        entityOwners := entityOwners[e := id];
      }
    }
    assert rows[..|rows|] == rows;
    accepted := true;
  }

  /** Core's field rules for one row: trimmed, bounded, canonical; blank optional text is dropped. */
  function CoreFields(r: Row): Option<Row> {
    var networkId, ieee, haDeviceId := Strip(r.networkId), Strip(r.ieee), Strip(r.haDeviceId);
    var name, areaId, areaName, entityId :=
      ContractText(r.haDeviceName), ContractText(r.areaId), ContractText(r.areaName), ContractText(r.entityId);
    if !(0 < |networkId| <= MAX_NETWORK_ID) || !DirectIeee(ieee) || !(0 < |haDeviceId| <= MAX_TEXT) then None
    else if name.Err? || areaId.Err? || areaName.Err? || entityId.Err? then None
    else Some(Row(networkId, "0x" + LowerAll(ieee[2..]), haDeviceId,
                  name.value, areaId.value, areaName.value, entityId.value))
  }

  /** The request Core accepts: at most the maximum of rows, all well-formed, nothing claimed twice. */
  ghost predicate CoreAccepts(request: seq<Row>, stored: seq<Row>) {
    && |request| <= MAX_DEVICES && |stored| == |request|
    && (forall i :: 0 <= i < |request| ==> CoreFields(request[i]) == Some(stored[i]))
    && Consistent(stored)
  }

  method ValidateRequest(request: seq<Row>) returns (stored: Option<seq<Row>>)
    ensures stored.Some? ==> CoreAccepts(request, stored.value)
    ensures stored.None? ==> forall rows :: !CoreAccepts(request, rows)
  {
    if |request| > MAX_DEVICES { return None; }
    var rows: seq<Row> := [];
    for i := 0 to |request|
      invariant |rows| == i
      invariant forall k :: 0 <= k < i ==> CoreFields(request[k]) == Some(rows[k])
    {
      var row := CoreFields(request[i]);
      if row.None? { return None; }
      rows := rows + [row.value];
    }
    var accepted := CheckOwners(rows);
    if accepted { return Some(rows); }
    forall other | |other| == |request| && forall i :: 0 <= i < |request| ==> CoreFields(request[i]) == Some(other[i])
      ensures other == rows {}
    return None;
  }

  /* ---------------- Core inventory ---------------- */

  datatype RawDevice = RawDevice(networkId: Option<string>, ieee: Option<string>, friendlyName: Option<string>)

  function ParseDevice(raw: RawDevice): Option<CoreDevice> {
    var networkId := OptionalText(raw.networkId, MAX_NETWORK_ID);
    var ieee := if raw.ieee.Some? then NormalizeIeee(raw.ieee.value) else None;
    var friendlyName := OptionalText(raw.friendlyName, MAX_TEXT);
    if networkId.None? || ieee.None? || friendlyName.None? then None
    else Some(CoreDevice(networkId.value, ieee.value, friendlyName.value))
  }

  function DeviceLe(): (CoreDevice, CoreDevice) -> bool {
    (a: CoreDevice, b: CoreDevice) => IdentityLe(DeviceIdentity(a), DeviceIdentity(b))
  }

  lemma DistinctIdentitiesPermuted(s: seq<CoreDevice>, t: seq<CoreDevice>)
    requires multiset(s) == multiset(t) && WellFormedInventory(s)
    ensures WellFormedInventory(t)
  {
    PermutedMembers(s, t);
    assert Distinct(s);
    PermutedDistinct(s, t);
    forall i, j | 0 <= i < j < |t| ensures DeviceIdentity(t[i]) != DeviceIdentity(t[j]) {
      assert t[i] in s && t[j] in s && t[i] != t[j];
      assert forall a, b :: a in s && b in s && a != b ==> DeviceIdentity(a) != DeviceIdentity(b);
    }
  }

  /** One complete inventory page: accepted exactly when whole, well-formed and free of repeats. */
  method ParseInventory(items: seq<RawDevice>, total: Option<int>, nextCursor: bool)
    returns (devices: Option<seq<CoreDevice>>)
    ensures devices.Some? <==>
            && total == Some(|items|) && !nextCursor && |items| <= MAX_DEVICES
            && (forall i :: 0 <= i < |items| ==> ParseDevice(items[i]).Some?)
            && (forall i, j :: 0 <= i < j < |items| ==>
                  DeviceIdentity(ParseDevice(items[i]).value) != DeviceIdentity(ParseDevice(items[j]).value))
    ensures devices.Some? ==>
              && WellFormedInventory(devices.value) && Sorted(DeviceLe(), devices.value)
              && |devices.value| == |items|
              && forall d :: d in devices.value <==> exists i :: 0 <= i < |items| && ParseDevice(items[i]) == Some(d)
  {
    if total != Some(|items|) { return None; }
    if nextCursor || |items| > MAX_DEVICES { return None; }
    var parsed: seq<CoreDevice> := [];
    var seen: set<Identity> := {};
    for i := 0 to |items|
      invariant |parsed| == i
      invariant forall k :: 0 <= k < i ==> ParseDevice(items[k]) == Some(parsed[k])
      invariant forall id :: id in seen <==> exists k :: 0 <= k < i && DeviceIdentity(parsed[k]) == id
      invariant WellFormedInventory(parsed)
    {
      var device := ParseDevice(items[i]);
      if device.None? { return None; }
      var id := DeviceIdentity(device.value);
      if id in seen { return None; }
      seen := seen + {id};
      parsed := parsed + [device.value];
    }
    IdentityLePreorder();
    SortBySorted(DeviceLe(), parsed);
    DistinctIdentitiesPermuted(parsed, SortBy(DeviceLe(), parsed));
    return Some(SortBy(DeviceLe(), parsed));
  }

  /* ---------------- every built snapshot is acceptable ---------------- */

  lemma NormalRowUnchanged(r: Row)
    requires NormalRow(r)
    ensures DeviceDict(r) == Ok(r)
    ensures CoreFields(r) == Some(r)
  {
    assert AllHex(r.ieee[2..]);
    assert LowerAll(r.ieee[2..]) == r.ieee[2..];
    assert r.ieee == "0x" + r.ieee[2..];
    assert Trimmed(r.ieee);
  }

  lemma DeviceDictNormal(r: Row)
    requires DeviceDict(r).Ok?
    ensures NormalRow(DeviceDict(r).value)
  {
  }

  lemma {:induction false} DeviceDictsNormal(devices: seq<Row>)
    requires DeviceDicts(devices).Ok?
    ensures forall r :: r in DeviceDicts(devices).value ==> NormalRow(r)
  {
    if devices != [] {
      DeviceDictNormal(devices[0]);
      DeviceDictsNormal(devices[1..]);
    }
  }

  lemma {:induction false} DeviceDictsUnchanged(devices: seq<Row>)
    requires forall r :: r in devices ==> NormalRow(r)
    ensures DeviceDicts(devices) == Ok(devices)
  {
    if devices != [] {
      NormalRowUnchanged(devices[0]);
      DeviceDictsUnchanged(devices[1..]);
      assert devices == [devices[0]] + devices[1..];
    }
  }

  ghost function Image<T(!new)>(f: Row -> T, rows: seq<Row>): set<T> { set r | r in rows :: f(r) }

  lemma ImageAppend<T(!new)>(f: Row -> T, rows: seq<Row>, x: Row)
    ensures Image(f, rows + [x]) == Image(f, rows) + {f(x)}
    ensures f(x) in Image(f, rows) <==> exists k :: 0 <= k < |rows| && f(rows[k]) == f(x)
  {
    assert forall r :: r in rows + [x] <==> r in rows || r == x;
    assert forall k :: 0 <= k < |rows| ==> rows[k] in rows;
    if f(x) in Image(f, rows) {
      var r :| r in rows && f(r) == f(x);
      var k :| 0 <= k < |rows| && rows[k] == r;
      assert f(rows[k]) == f(x);
    }
  }

  /** A set of projections is as large as the sequence exactly when no projection repeats. */
  lemma {:induction false} ProjectionSize<T(!new)>(f: Row -> T, rows: seq<Row>)
    ensures |Image(f, rows)| <= |rows|
    ensures |Image(f, rows)| == |rows| <==> forall i, j :: 0 <= i < j < |rows| ==> f(rows[i]) != f(rows[j])
  {
    hide Image;
    if rows != [] {
      var init, last := rows[..|rows| - 1], rows[|rows| - 1];
      assert rows == init + [last];
      ProjectionSize(f, init);
      ImageAppend(f, init, last);
      if f(last) in Image(f, init) {
        assert Image(f, rows) == Image(f, init);
        var k :| 0 <= k < |init| && f(init[k]) == f(last);
        assert f(rows[k]) == f(rows[|rows| - 1]);
      } else {
        assert |Image(f, rows)| == |Image(f, init)| + 1;
        forall k | 0 <= k < |init| ensures f(rows[k]) != f(last) { assert init[k] == rows[k]; }
      }
    } else {
      NoImage(f);
    }
  }

  lemma NoImage<T(!new)>(f: Row -> T)
    ensures Image(f, []) == {}
  {
  }

  lemma IdSize(rows: seq<Row>)
    ensures |set r | r in rows :: r.Id()| == |rows| <==> UniqueIds(rows)
  {
    var f := (r: Row) => r.Id();
    ProjectionSize(f, rows);
    assert (set r | r in rows :: r.Id()) == Image(f, rows);
    assert forall i :: 0 <= i < |rows| ==> f(rows[i]) == rows[i].Id();
  }

  lemma DeviceSize(rows: seq<Row>)
    ensures |set r | r in rows :: r.haDeviceId| == |rows| <==> UniqueDevices(rows)
  {
    var f := (r: Row) => r.haDeviceId;
    ProjectionSize(f, rows);
    assert (set r | r in rows :: r.haDeviceId) == Image(f, rows);
    assert forall i :: 0 <= i < |rows| ==> f(rows[i]) == rows[i].haDeviceId;
  }

  lemma EntitySize(rows: seq<Row>)
    requires forall r :: r in rows ==> r.entityId.Some?
    ensures |set r | r in rows :: r.entityId| == |rows| <==> UniqueEntities(rows)
  {
    var f := (r: Row) => r.entityId;
    ProjectionSize(f, rows);
    assert (set r | r in rows :: r.entityId) == Image(f, rows);
    assert forall i :: 0 <= i < |rows| ==> f(rows[i]) == rows[i].entityId && rows[i].entityId.Some?;
  }

  function HasEntity(): Row -> bool { (r: Row) => r.entityId.Some? }

  lemma {:induction false} EntityProjection(rows: seq<Row>)
    ensures UniqueEntities(rows) <==> UniqueEntities(Filter(HasEntity(), rows))
  {
    if rows != [] {
      var init, last := rows[..|rows| - 1], rows[|rows| - 1];
      EntityProjection(init);
      FilterMembers(HasEntity(), init);
      assert rows == init + [last];
      UniqueEntitiesAppend(init, last);
      UniqueEntitiesAppend(Filter(HasEntity(), init), last);
    }
  }

  /** The payload checks by set size are the same three distinctness rules Core enforces. */
  lemma PayloadMeaning(devices: seq<Row>)
    ensures
      var dicts := DeviceDicts(devices);
      RequestPayload(devices).Ok? <==>
        dicts.Ok? && |devices| <= MAX_DEVICES && Consistent(SortBy(RowLe(), dicts.value))
    ensures RequestPayload(devices).Ok? ==>
              RequestPayload(devices).value == SortBy(RowLe(), DeviceDicts(devices).value)
  {
    var dicts := DeviceDicts(devices);
    DeviceDictsLength(devices);
    if dicts.Ok? {
      var rows := SortBy(RowLe(), dicts.value);
      FilterMembers(HasEntity(), rows);
      IdSize(rows);
      DeviceSize(rows);
      EntitySize(Filter(HasEntity(), rows));
      EntityProjection(rows);
    }
  }

  lemma {:induction false} DeviceDictsLength(devices: seq<Row>)
    ensures DeviceDicts(devices).Ok? ==> |DeviceDicts(devices).value| == |devices|
  {
    if devices != [] { DeviceDictsLength(devices[1..]); }
  }

  /** Whatever the builder sends, Core accepts and stores as sent. */
  lemma PayloadAccepted(devices: seq<Row>)
    requires RequestPayload(devices).Ok?
    ensures CoreAccepts(RequestPayload(devices).value, RequestPayload(devices).value)
  {
    PayloadMeaning(devices);
    DeviceDictsLength(devices);
    DeviceDictsNormal(devices);
    var rows := RequestPayload(devices).value;
    forall i | 0 <= i < |rows| ensures CoreFields(rows[i]) == Some(rows[i]) {
      assert rows[i] in rows;
      NormalRowUnchanged(rows[i]);
    }
  }

  lemma RowsNormal(cands: seq<Candidate>, ambiguous: nat, inv: seq<CoreDevice>, r: Row)
    requires WellFormedRegistry(Complete(cands, ambiguous)) && WellFormedInventory(inv)
    requires r in Resolved(cands, ambiguous, inv).rows
    ensures NormalRow(r)
  {
    RowsMeaning(cands, ambiguous, inv, r);
    var c :| Claimants(r.Id(), cands, inv) == [c] && r == RowOf(r.Id(), c);
    FilterMembers(Claims(r.Id(), inv), cands);
    assert c in Claimants(r.Id(), cands, inv);
    assert Select(c, inv).value in inv;
  }

  lemma RowsBounded(cands: seq<Candidate>, ambiguous: nat, inv: seq<CoreDevice>)
    ensures |Resolved(cands, ambiguous, inv).rows| <= |cands|
  {
    var ids := SortedIds(cands, inv);
    PermutedDistinct(Firsts(SelectedIds(cands, inv)), ids);
    ClaimantsPartition(ids, cands, inv);
  }

  /**
   Resolving a well-formed registry against a parsed inventory gives rows the payload builder passes
   through unchanged and Core accepts: neither side can raise on them.
   */
  lemma BuiltSnapshotAccepted(cands: seq<Candidate>, ambiguous: nat, inv: seq<CoreDevice>)
    requires WellFormedRegistry(Complete(cands, ambiguous)) && WellFormedInventory(inv)
    ensures
      var rows := Resolved(cands, ambiguous, inv).rows;
      RequestPayload(rows) == Ok(rows) && CoreAccepts(rows, rows)
  {
    var rows := Resolved(cands, ambiguous, inv).rows;
    forall r | r in rows ensures NormalRow(r) { RowsNormal(cands, ambiguous, inv, r); }
    DeviceDictsUnchanged(rows);
    RowsUnique(cands, ambiguous, inv);
    SortByFixed(RowLe(), rows);
    RowsBounded(cands, ambiguous, inv);
    PayloadMeaning(rows);
    PayloadAccepted(rows);
  }
}
