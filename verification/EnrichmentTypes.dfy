/**
 Data carried from the Home Assistant registries and the Core inventory to one
 enrichment snapshot, with the text rules both sides apply.
 */
module EnrichmentTypes {
  import opened Basics
  import opened Sequences

  const MAX_DEVICES := 5000
  const MAX_TEXT := 255
  const MAX_NETWORK_ID := 128

  /** One Home Assistant device with exactly one supported Zigbee address. */
  datatype Candidate = Candidate(
    ieee: string, haDeviceId: string, haDeviceName: Option<string>,
    areaId: Option<string>, areaName: Option<string>, entityId: Option<string>,
    originalName: Option<string>)

  /** A complete registry read, or none at all. */
  datatype Registry = Unavailable | Complete(candidates: seq<Candidate>, ambiguous: nat)

  datatype CoreDevice = CoreDevice(networkId: string, ieee: string, friendlyName: string)

  datatype Identity = Identity(networkId: string, ieee: string)

  datatype Row = Row(
    networkId: string, ieee: string, haDeviceId: string, haDeviceName: Option<string>,
    areaId: Option<string>, areaName: Option<string>, entityId: Option<string>)
  {
    function Id(): Identity { Identity(networkId, ieee) }
  }

  datatype Build = Build(
    devices: seq<Row>, submittedCandidates: nat, unmatched: nat, ambiguous: nat, fingerprint: string)

  predicate IdentityLe(a: Identity, b: Identity) {
    if a.networkId == b.networkId then TextLe(a.ieee, b.ieee) else TextLe(a.networkId, b.networkId)
  }

  lemma IdentityLePreorder()
    ensures Preorder(IdentityLe)
    ensures forall a, b :: IdentityLe(a, b) && IdentityLe(b, a) ==> a == b
  {
    TextLePreorder();
  }

  /* ---------------- text ---------------- */

  /** The characters `str.strip` removes. */
  predicate IsSpace(c: char) {
    '\t' <= c <= '\r' || '\U{1c}' <= c <= ' ' || c == '\U{85}' || c == '\U{a0}' || c == '\U{1680}' ||
    '\U{2000}' <= c <= '\U{200a}' || c == '\U{2028}' || c == '\U{2029}' || c == '\U{202f}' ||
    c == '\U{205f}' || c == '\U{3000}'
  }

  predicate Trimmed(s: string) {
    s == "" || (!IsSpace(s[0]) && !IsSpace(s[|s| - 1]))
  }

  function Strip(s: string): (r: string)
    ensures Trimmed(r) && |r| <= |s|
    ensures Trimmed(s) ==> r == s
    decreases |s|
  {
    if s == "" then ""
    else if IsSpace(s[0]) then Strip(s[1..])
    else if IsSpace(s[|s| - 1]) then Strip(s[..|s| - 1])
    else s
  }

  /** Text that is already what the text helpers would return. */
  predicate NormalText(s: string, max: nat) { Trimmed(s) && 0 < |s| <= max }

  predicate NormalOptional(o: Option<string>) { o.Some? ==> NormalText(o.value, MAX_TEXT) }

  function OptionalText(value: Option<string>, max: nat): (r: Option<string>)
    ensures r.Some? ==> NormalText(r.value, max)
    ensures value.Some? && NormalText(value.value, max) ==> r == value
  {
    if value.None? then None
    else
      var s := Strip(value.value);
      if s == "" || |s| > max then None else Some(s)
  }

  predicate IsLowerHex(c: char) { '0' <= c <= '9' || 'a' <= c <= 'f' }

  predicate IsHex(c: char) { IsLowerHex(c) || 'A' <= c <= 'F' }

  predicate AllHex(s: string) { forall i :: 0 <= i < |s| ==> IsHex(s[i]) }

  predicate CanonicalIeee(s: string) {
    |s| == 18 && s[0] == '0' && s[1] == 'x' && forall i :: 2 <= i < 18 ==> IsLowerHex(s[i])
  }

  function LowerHex(c: char): (r: char)
    requires IsHex(c)
    ensures IsLowerHex(r) && (IsLowerHex(c) ==> r == c)
  {
    if 'A' <= c <= 'F' then (c as int - 'A' as int + 'a' as int) as char else c
  }

  function LowerAll(s: string): (r: string)
    requires AllHex(s)
    ensures |r| == |s| && forall i :: 0 <= i < |s| ==> IsLowerHex(r[i]) && r[i] == LowerHex(s[i])
  {
    seq(|s|, i requires 0 <= i < |s| => LowerHex(s[i]))
  }

  /** `0x` and sixteen hexadecimal digits, in any letter case. */
  predicate DirectIeee(s: string) {
    |s| == 18 && s[0] == '0' && (s[1] == 'x' || s[1] == 'X') && AllHex(s[2..])
  }

  /** Eight colon-separated pairs of hexadecimal digits. */
  predicate ColonIeee(s: string) {
    |s| == 23 && forall i :: 0 <= i < 23 ==> if i % 3 == 2 then s[i] == ':' else IsHex(s[i])
  }

  function DropColons(s: string): (r: string)
    requires ColonIeee(s)
    ensures |r| == 16 && AllHex(r)
    ensures forall k :: 0 <= k < 16 ==> r[k] == s[k / 2 * 3 + k % 2]
  {
    seq(16, k requires 0 <= k < 16 => s[k / 2 * 3 + k % 2])
  }

  function NormalizeIeee(s: string): (r: Option<string>)
    ensures r.Some? ==> CanonicalIeee(r.value)
    ensures r.Some? <==> DirectIeee(s) || ColonIeee(s)
  {
    if DirectIeee(s) then Some("0x" + LowerAll(s[2..]))
    else if ColonIeee(s) then Some("0x" + LowerAll(DropColons(s)))
    else None
  }

  /** A canonical address is its own normal form, and so is reached from every other spelling. */
  lemma NormalizeIeeeIdempotent(s: string)
    ensures CanonicalIeee(s) ==> NormalizeIeee(s) == Some(s)
    ensures NormalizeIeee(s).Some? ==> NormalizeIeee(NormalizeIeee(s).value) == NormalizeIeee(s)
  {
    forall c: string | CanonicalIeee(c) ensures NormalizeIeee(c) == Some(c) {
      assert AllHex(c[2..]);
      assert LowerAll(c[2..]) == c[2..];
      assert c == "0x" + c[2..];
    }
  }

  /* ---------------- well-formed sources ---------------- */

  /** What the registry builder guarantees of every candidate it returns. */
  predicate WellFormedCandidate(c: Candidate) {
    && CanonicalIeee(c.ieee) && NormalText(c.haDeviceId, MAX_TEXT)
    && NormalOptional(c.haDeviceName) && NormalOptional(c.areaId) && NormalOptional(c.areaName)
    && NormalOptional(c.entityId) && NormalOptional(c.originalName)
  }

  ghost predicate WellFormedRegistry(reg: Registry) {
    reg.Complete? ==>
      && |reg.candidates| <= MAX_DEVICES
      && forall c :: c in reg.candidates ==> WellFormedCandidate(c)
  }

  predicate WellFormedCoreDevice(d: CoreDevice) {
    NormalText(d.networkId, MAX_NETWORK_ID) && CanonicalIeee(d.ieee) && NormalText(d.friendlyName, MAX_TEXT)
  }

  function DeviceIdentity(d: CoreDevice): Identity { Identity(d.networkId, d.ieee) }

  ghost predicate WellFormedInventory(inv: seq<CoreDevice>) {
    && (forall d :: d in inv ==> WellFormedCoreDevice(d))
    && (forall i, j :: 0 <= i < j < |inv| ==> DeviceIdentity(inv[i]) != DeviceIdentity(inv[j]))
  }

  /** A row the payload builder would leave unchanged. */
  predicate NormalRow(r: Row) {
    && NormalText(r.networkId, MAX_NETWORK_ID) && CanonicalIeee(r.ieee) && NormalText(r.haDeviceId, MAX_TEXT)
    && NormalOptional(r.haDeviceName) && NormalOptional(r.areaId) && NormalOptional(r.areaName)
    && NormalOptional(r.entityId)
  }
}
