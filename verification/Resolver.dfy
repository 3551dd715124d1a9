/**
 Matching of registry candidates against the Core inventory: the declarative
 result, and the dictionary-building loops that compute it.
 */
module Resolver {
  import opened Basics
  import opened Sequences
  import opened EnrichmentTypes

  /* ---------------- what is resolved ---------------- */

  function OfIeee(ieee: string): CoreDevice -> bool { (d: CoreDevice) => d.ieee == ieee }

  function Named(name: string): CoreDevice -> bool { (d: CoreDevice) => d.friendlyName == name }

  /** The one inventory device a candidate means: its only address match, else its only namesake. */
  function Select(c: Candidate, inv: seq<CoreDevice>): (r: Option<CoreDevice>)
    ensures r.Some? ==> r.value in inv && r.value.ieee == c.ieee
  {
    FilterMembers(OfIeee(c.ieee), inv);
    var rows := Filter(OfIeee(c.ieee), inv);
    if |rows| == 1 then assert rows[0] in rows; Some(rows[0])
    else if |rows| > 1 && c.originalName.Some? then
      FilterMembers(Named(c.originalName.value), rows);
      var named := Filter(Named(c.originalName.value), rows);
      if |named| == 1 then assert named[0] in named; Some(named[0]) else None
    else None
  }

  function Claims(id: Identity, inv: seq<CoreDevice>): Candidate -> bool {
    (c: Candidate) => Select(c, inv).Some? && DeviceIdentity(Select(c, inv).value) == id
  }

  function Absent(inv: seq<CoreDevice>): Candidate -> bool {
    (c: Candidate) => Filter(OfIeee(c.ieee), inv) == []
  }

  function Undecided(inv: seq<CoreDevice>): Candidate -> bool {
    (c: Candidate) => Filter(OfIeee(c.ieee), inv) != [] && Select(c, inv).None?
  }

  /** The identities candidates select, in candidate order, repeats included. */
  function SelectedIds(cands: seq<Candidate>, inv: seq<CoreDevice>): seq<Identity> {
    if cands == [] then []
    else
      var init := SelectedIds(cands[..|cands| - 1], inv);
      var s := Select(cands[|cands| - 1], inv);
      if s.Some? then init + [DeviceIdentity(s.value)] else init
  }

  function RowOf(id: Identity, c: Candidate): Row {
    Row(id.networkId, id.ieee, c.haDeviceId, c.haDeviceName, c.areaId, c.areaName, c.entityId)
  }

  function Claimants(id: Identity, cands: seq<Candidate>, inv: seq<CoreDevice>): seq<Candidate> {
    Filter(Claims(id, inv), cands)
  }

  /** One row for every identity claimed exactly once, in the order of `ids`. */
  function SoleRows(ids: seq<Identity>, cands: seq<Candidate>, inv: seq<CoreDevice>): seq<Row> {
    if ids == [] then []
    else
      var id := ids[|ids| - 1];
      var claimants := Claimants(id, cands, inv);
      SoleRows(ids[..|ids| - 1], cands, inv) + (if |claimants| == 1 then [RowOf(id, claimants[0])] else [])
  }

  /** Candidates that claim an identity someone else claims too. */
  function Contested(ids: seq<Identity>, cands: seq<Candidate>, inv: seq<CoreDevice>): nat {
    if ids == [] then 0
    else
      var n := |Claimants(ids[|ids| - 1], cands, inv)|;
      Contested(ids[..|ids| - 1], cands, inv) + (if n == 1 then 0 else n)
  }

  function OnDevice(haDeviceId: string): Row -> bool { (r: Row) => r.haDeviceId == haDeviceId }

  function OnEntity(entityId: string): Row -> bool { (r: Row) => r.entityId == Some(entityId) }

  /** No other row names the same Home Assistant device or representative entity. */
  function Unconflicted(rows: seq<Row>): Row -> bool {
    (r: Row) =>
      && |Filter(OnDevice(r.haDeviceId), rows)| == 1
      && (r.entityId.Some? ==> |Filter(OnEntity(r.entityId.value), rows)| == 1)
  }

  function SortedIds(cands: seq<Candidate>, inv: seq<CoreDevice>): seq<Identity> {
    SortBy(IdentityLe, Firsts(SelectedIds(cands, inv)))
  }

  datatype Resolution = Resolution(rows: seq<Row>, unmatched: nat, ambiguous: nat)

  function Resolved(cands: seq<Candidate>, ambiguous: nat, inv: seq<CoreDevice>): Resolution {
    var ids := SortedIds(cands, inv);
    var sole := SoleRows(ids, cands, inv);
    var rows := Filter(Unconflicted(sole), sole);
    Resolution(
      rows,
      |Filter(Absent(inv), cands)|,
      ambiguous + |Filter(Undecided(inv), cands)| + Contested(ids, cands, inv) + (|sole| - |rows|))
  }

  /* ---------------- how it is computed ---------------- */

  datatype Match = Match(candidate: Candidate, device: CoreDevice)

  method IndexByIeee(inv: seq<CoreDevice>) returns (byIeee: map<string, seq<CoreDevice>>)
    ensures forall k :: k in byIeee <==> Filter(OfIeee(k), inv) != []
    ensures forall k :: k in byIeee ==> byIeee[k] == Filter(OfIeee(k), inv)
  {
    byIeee := map[];
    for i := 0 to |inv|
      invariant forall k :: k in byIeee <==> Filter(OfIeee(k), inv[..i]) != []
      invariant forall k :: k in byIeee ==> byIeee[k] == Filter(OfIeee(k), inv[..i])
    {
      var device := inv[i];
      assert inv[..i + 1] == inv[..i] + [device];
      forall k ensures Filter(OfIeee(k), inv[..i + 1]) ==
                       Filter(OfIeee(k), inv[..i]) + (if k == device.ieee then [device] else []) {
        FilterAppend(OfIeee(k), inv[..i], device);
      }
      var row := if device.ieee in byIeee then byIeee[device.ieee] else [];
      byIeee := byIeee[device.ieee := row + [device]];
    }
    assert inv[..|inv|] == inv;
  }

  /** A group lists exactly the claimants of its identity, in candidate order. */
  ghost predicate GroupOf(matches: seq<Match>, id: Identity, claimants: seq<Candidate>) {
    && |matches| == |claimants|
    && forall k :: 0 <= k < |matches| ==>
         matches[k].candidate == claimants[k] && DeviceIdentity(matches[k].device) == id
  }

  ghost predicate GroupsOf(groups: map<Identity, seq<Match>>, cands: seq<Candidate>, inv: seq<CoreDevice>) {
    && (forall id :: id in groups <==> id in SelectedIds(cands, inv))
    && (forall id :: id in groups ==> GroupOf(groups[id], id, Claimants(id, cands, inv)))
  }

  lemma {:induction false} UnselectedHasNoClaimants(id: Identity, cands: seq<Candidate>, inv: seq<CoreDevice>)
    ensures id in SelectedIds(cands, inv) <==> Claimants(id, cands, inv) != []
  {
    if cands != [] {
      UnselectedHasNoClaimants(id, cands[..|cands| - 1], inv);
    }
  }

  lemma ClaimantsAppend(id: Identity, cands: seq<Candidate>, c: Candidate, inv: seq<CoreDevice>)
    ensures Claimants(id, cands + [c], inv) ==
            Claimants(id, cands, inv) +
            (if Select(c, inv).Some? && DeviceIdentity(Select(c, inv).value) == id then [c] else [])
    ensures SelectedIds(cands + [c], inv) ==
            SelectedIds(cands, inv) +
            (if Select(c, inv).Some? then [DeviceIdentity(Select(c, inv).value)] else [])
  {
    assert (cands + [c])[..|cands|] == cands;
    FilterAppend(Claims(id, inv), cands, c);
  }

  lemma GroupsExtend(
    groups: map<Identity, seq<Match>>, cands: seq<Candidate>, c: Candidate, d: CoreDevice, inv: seq<CoreDevice>,
    after: map<Identity, seq<Match>>)
    requires GroupsOf(groups, cands, inv)
    requires Select(c, inv) == Some(d)
    requires
      var id := DeviceIdentity(d);
      after == groups[id := (if id in groups then groups[id] else []) + [Match(c, d)]]
    ensures GroupsOf(after, cands + [c], inv)
  {
    var id := DeviceIdentity(d);
    ClaimantsAppend(id, cands, c, inv);
    UnselectedHasNoClaimants(id, cands, inv);
    forall other ensures other in after <==> other in SelectedIds(cands + [c], inv) {}
    forall other | other in after ensures GroupOf(after[other], other, Claimants(other, cands + [c], inv)) {
      ClaimantsAppend(other, cands, c, inv);
    }
  }

  lemma GroupsSkip(groups: map<Identity, seq<Match>>, cands: seq<Candidate>, c: Candidate, inv: seq<CoreDevice>)
    requires GroupsOf(groups, cands, inv) && Select(c, inv).None?
    ensures GroupsOf(groups, cands + [c], inv)
  {
    forall id ensures Claimants(id, cands + [c], inv) == Claimants(id, cands, inv) &&
                      SelectedIds(cands + [c], inv) == SelectedIds(cands, inv) {
      ClaimantsAppend(id, cands, c, inv);
    }
  }

  /** The inline choice made from the address index is `Select`. */
  method SelectIndexed(c: Candidate, coreRows: seq<CoreDevice>, ghost inv: seq<CoreDevice>)
    returns (selected: Option<CoreDevice>)
    requires coreRows == Filter(OfIeee(c.ieee), inv)
    ensures selected == Select(c, inv)
  {
    selected := None;
    if |coreRows| == 1 {
      selected := Some(coreRows[0]);
    } else if |coreRows| > 1 && c.originalName.Some? {
      var originalMatches := Filter(Named(c.originalName.value), coreRows);
      if |originalMatches| == 1 {
        selected := Some(originalMatches[0]);
      }
    }
  }

  method GroupCandidates(cands: seq<Candidate>, inv: seq<CoreDevice>)
    returns (groups: map<Identity, seq<Match>>, order: seq<Identity>, unmatched: nat, undecided: nat)
    ensures GroupsOf(groups, cands, inv)
    ensures order == Firsts(SelectedIds(cands, inv))
    ensures unmatched == |Filter(Absent(inv), cands)|
    ensures undecided == |Filter(Undecided(inv), cands)|
  {
    var byIeee := IndexByIeee(inv);
    groups, order, unmatched, undecided := map[], [], 0, 0;
    for i := 0 to |cands|
      invariant GroupsOf(groups, cands[..i], inv)
      invariant order == Firsts(SelectedIds(cands[..i], inv))
      invariant unmatched == |Filter(Absent(inv), cands[..i])|
      invariant undecided == |Filter(Undecided(inv), cands[..i])|
    {
      var c := cands[i];
      assert cands[..i + 1] == cands[..i] + [c];
      FilterAppend(Absent(inv), cands[..i], c);
      FilterAppend(Undecided(inv), cands[..i], c);
      var coreRows := if c.ieee in byIeee then byIeee[c.ieee] else [];
      assert coreRows == Filter(OfIeee(c.ieee), inv);
      var selected := SelectIndexed(c, coreRows, inv);
      if selected.None? {
        ClaimantsAppend(Identity("", ""), cands[..i], c, inv);
        GroupsSkip(groups, cands[..i], c, inv);
        if coreRows != [] { undecided := undecided + 1; } else { unmatched := unmatched + 1; }
      } else {
        var id := DeviceIdentity(selected.value);
        ClaimantsAppend(id, cands[..i], c, inv);
        FirstsAppend(SelectedIds(cands[..i], inv), id);
        if id !in groups { order := order + [id]; }
        ghost var before := groups;
        groups := groups[id := (if id in groups then groups[id] else []) + [Match(c, selected.value)]];
        GroupsExtend(before, cands[..i], c, selected.value, inv, groups);
      }
    }
    assert cands[..|cands|] == cands;
  }

  /** `owners` counts, for every key, the rows of that key. */
  ghost predicate Counts(owners: map<string, nat>, rows: seq<Row>, on: string -> Row -> bool) {
    forall k :: |Filter(on(k), rows)| == if k in owners then owners[k] else 0
  }

  lemma CountsExtend(owners: map<string, nat>, rows: seq<Row>, on: string -> Row -> bool, row: Row, key: string)
    requires Counts(owners, rows, on)
    requires forall k :: on(k)(row) <==> k == key
    ensures Counts(owners[key := (if key in owners then owners[key] else 0) + 1], rows + [row], on)
  {
    forall k ensures |Filter(on(k), rows + [row])| == |Filter(on(k), rows)| + (if k == key then 1 else 0) {
      FilterAppend(on(k), rows, row);
    }
  }

  lemma CountsSkip(owners: map<string, nat>, rows: seq<Row>, on: string -> Row -> bool, row: Row)
    requires Counts(owners, rows, on)
    requires forall k :: !on(k)(row)
    ensures Counts(owners, rows + [row], on)
  {
    forall k ensures |Filter(on(k), rows + [row])| == |Filter(on(k), rows)| {
      FilterAppend(on(k), rows, row);
    }
  }

  lemma CountsPositive(owners: map<string, nat>, rows: seq<Row>, on: string -> Row -> bool, row: Row, key: string)
    requires Counts(owners, rows, on) && row in rows && on(key)(row)
    ensures key in owners && owners[key] == |Filter(on(key), rows)|
  {
    FilterMembers(on(key), rows);
    assert row in Filter(on(key), rows);
  }

  method CountOwners(rows: seq<Row>) returns (devices: map<string, nat>, entities: map<string, nat>)
    ensures Counts(devices, rows, OnDevice)
    ensures Counts(entities, rows, OnEntity)
  {
    devices, entities := map[], map[];
    for i := 0 to |rows|
      invariant Counts(devices, rows[..i], OnDevice)
      invariant Counts(entities, rows[..i], OnEntity)
    {
      var row := rows[i];
      assert rows[..i + 1] == rows[..i] + [row];
      CountsExtend(devices, rows[..i], OnDevice, row, row.haDeviceId);
      devices := devices[row.haDeviceId := (if row.haDeviceId in devices then devices[row.haDeviceId] else 0) + 1];
      if row.entityId.Some? {
        var e := row.entityId.value;
        CountsExtend(entities, rows[..i], OnEntity, row, e);
        entities := entities[e := (if e in entities then entities[e] else 0) + 1];
      } else {
        CountsSkip(entities, rows[..i], OnEntity, row);
      }
    }
    assert rows[..|rows|] == rows;
  }

  /** The rows whose Home Assistant device and entity occur once. */
  method DropConflicts(rows: seq<Row>) returns (kept: seq<Row>)
    ensures kept == Filter(Unconflicted(rows), rows)
  {
    var devices, entities := CountOwners(rows);
    kept := [];
    for i := 0 to |rows|
      invariant kept == Filter(Unconflicted(rows), rows[..i])
    {
      var row := rows[i];
      assert rows[..i + 1] == rows[..i] + [row];
      FilterAppend(Unconflicted(rows), rows[..i], row);
      CountsPositive(devices, rows, OnDevice, row, row.haDeviceId);
      if row.entityId.Some? { CountsPositive(entities, rows, OnEntity, row, row.entityId.value); }
      if devices[row.haDeviceId] == 1 && (row.entityId.None? || entities[row.entityId.value] == 1) {
        kept := kept + [row];
      }
    }
    assert rows[..|rows|] == rows;
  }

  /** The resolver's loops compute the declarative resolution. */
  method Resolve(cands: seq<Candidate>, registryAmbiguous: nat, inv: seq<CoreDevice>) returns (r: Resolution)
    ensures r == Resolved(cands, registryAmbiguous, inv)
  {
    hide SortBy, Filter, Firsts, SelectedIds, Claimants;
    var groups, order, unmatched, ambiguous := GroupCandidates(cands, inv);
    ambiguous := registryAmbiguous + ambiguous;
    var ids := SortBy(IdentityLe, order);
    ghost var undecided := ambiguous;
    var rows: seq<Row> := [];
    for i := 0 to |ids|
      invariant rows == SoleRows(ids[..i], cands, inv)
      invariant ambiguous == undecided + Contested(ids[..i], cands, inv)
    {
      var id := ids[i];
      assert ids[..i + 1][..i] == ids[..i];
      assert id in groups;
      var matches := groups[id];
      if |matches| != 1 {
        ambiguous := ambiguous + |matches|;
      } else {
        var m := matches[0];
        rows := rows + [Row(m.device.networkId, m.device.ieee, m.candidate.haDeviceId, m.candidate.haDeviceName,
                            m.candidate.areaId, m.candidate.areaName, m.candidate.entityId)];
      }
    }
    assert ids[..|ids|] == ids;

    var kept := DropConflicts(rows);
    r := Resolution(kept, unmatched, ambiguous + (|rows| - |kept|));
  }
}
