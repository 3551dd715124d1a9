/**
 The devices and evidence edges of one mesh graph. `rank` stands for
 `localeCompare`: two texts compare as their ranks do.
 */
module MeshTypes {
  import opened Basics
  import opened Sequences

  datatype Role = Coordinator | Router | EndDevice | UnknownRole

  datatype HealthBucket =
    | Healthy | NeedsAttention | Unavailable | DiagnosticsLimited | RecentlyUnstable | Informational | UnknownHealth

  datatype Flag =
    | FlagUnavailable | FlagNeedsAttention | FlagDiagnosticsLimited | FlagInterviewFailure | FlagWeakLink
    | FlagRouterRisk | FlagBatterySleepy

  datatype Device = Device(
    id: string, name: string, role: Role, openIssue: bool, health: HealthBucket, flags: seq<Flag>)

  datatype EvidenceClass =
    | LatestNeighbor | LatestRoute | StaleLowConfidence | HistoricalNeighbor | HistoricalRoute | LastKnownLink
    | PassiveAssociation

  datatype Confidence = High | Medium | Low

  /** A missing LQI is unknown, never zero. A missing `lastSeen` is the empty text. */
  datatype Edge = Edge(
    id: string, source: string, target: string, evidence: EvidenceClass, confidence: Confidence,
    issueRelated: bool, lqi: Option<int>, lastSeen: string)

  function Touches(v: string): Edge -> bool { (e: Edge) => e.source == v || e.target == v }

  /** Direction-independent text key of a device pair. */
  function PairKey(a: string, b: string): string {
    if TextLt(a, b) then a + "|" + b else b + "|" + a
  }

  lemma {:induction false} SplitAtBar(a: string, b: string, c: string, d: string)
    requires '|' !in a && '|' !in c && a + "|" + b == c + "|" + d
    ensures a == c && b == d
  {
    var left, right := a + "|" + b, c + "|" + d;
    assert left[|a|] == '|' && right[|c|] == '|';
    assert forall i :: 0 <= i < |a| ==> left[i] == a[i] && a[i] in a;
    assert forall i :: 0 <= i < |c| ==> right[i] == c[i] && c[i] in c;
    assert |a| == |c|;
    assert a == left[..|a|] && c == right[..|c|];
    assert b == left[|a| + 1..] && d == right[|c| + 1..];
  }

  /** For ids free of the separator, a pair key names the pair. */
  lemma PairKeyMeaning(a: string, b: string, c: string, d: string)
    requires '|' !in a && '|' !in b && '|' !in c && '|' !in d
    ensures PairKey(a, b) == PairKey(c, d) <==> (a == c && b == d) || (a == d && b == c)
  {
    TextLePreorder();
    var p, q := if TextLt(a, b) then a else b, if TextLt(a, b) then b else a;
    var r, s := if TextLt(c, d) then c else d, if TextLt(c, d) then d else c;
    if p + "|" + q == r + "|" + s { SplitAtBar(p, q, r, s); }
  }

  /** No device id holds the key separator. */
  ghost predicate BarFree(edges: seq<Edge>) {
    forall e :: e in edges ==> '|' !in e.source && '|' !in e.target
  }
}
