/**
 Device snapshot history: rows of stored layouts compared with the latest one, and
 facts that must say exactly what the rows show. Documents are given after field
 typing; strings that must not be empty and the remaining fields are part of that.
 */
module SnapshotHistory {
  import opened Basics
  import opened Sequences

  datatype Counts = Counts(latest: nat, selected: nat, latestOnly: nat, selectedOnly: nat, changed: nat)

  datatype Status = NoNotableChange | Changed | Watch | WorthReviewing

  datatype Presence = Presence(latest: bool, selected: bool, changed: bool)

  datatype Comparison = Comparison(status: Status, presence: Presence, links: Counts, routes: Counts)

  datatype Coverage = Off | Building | Tracked | UnknownCoverage

  datatype Layout = Limited | Available(present: bool, links: nat, routes: nat, comparison: Option<Comparison>)

  datatype Row = Row(id: string, isLatest: bool, coverage: Coverage, layout: Layout)

  datatype LatestFact =
    | Seen(device: string, snapshot: string)
    | Absent(device: string, snapshot: string)
    | HasLinks(device: string, count: nat)
    | NoLinks(device: string)

  datatype RowFact =
    | SelectedLinks(device: string, snapshot: string, count: nat)
    | LayoutChanged(
        device: string, snapshot: string, status: Status, latestPresent: bool, selectedPresent: bool,
        presenceChanged: bool)
    | CoverageAffects(device: string, snapshot: string, coverage: Coverage)

  datatype Detail = Detail(
    device: string, hasIssue: bool, latest: Option<Row>, snapshots: seq<Row>, deviceFacts: seq<LatestFact>,
    rowFacts: map<string, seq<RowFact>>)

  /* ---------------- pair counts ---------------- */

  /** The arithmetic the validators check. */
  predicate PairArithmetic(c: Counts) {
    && c.latestOnly <= c.latest && c.selectedOnly <= c.selected
    && c.latest - c.latestOnly == c.selected - c.selectedOnly
    && c.changed <= c.latest - c.latestOnly
  }

  /** Two keyed pair tables with exactly these numbers of pairs, one-sided pairs and changed pairs. */
  ghost predicate Counted(latest: map<nat, bool>, selected: map<nat, bool>, c: Counts) {
    && |latest| == c.latest && |selected| == c.selected
    && |latest.Keys - selected.Keys| == c.latestOnly && |selected.Keys - latest.Keys| == c.selectedOnly
    && |ChangedKeys(latest, selected)| == c.changed
  }

  ghost function ChangedKeys(latest: map<nat, bool>, selected: map<nat, bool>): set<nat> {
    set k | k in latest && k in selected && latest[k] != selected[k]
  }

  function Below(from: nat, to: nat): (s: set<nat>)
    ensures forall k :: k in s <==> from <= k < to
  {
    if from < to then Below(from, to - 1) + {to - 1} else {}
  }

  lemma {:induction false} RangeSize(s: set<nat>, from: nat, to: nat)
    requires forall k :: k in s <==> from <= k < to
    ensures |s| == Max(0, to - from)
  {
    if from < to {
      RangeSize(s - {to - 1}, from, to - 1);
      assert s == (s - {to - 1}) + {to - 1};
    } else {
      assert s == {};
    }
  }

  lemma TwoRangesSize(s: set<nat>, a: nat, b: nat, c: nat)
    requires a <= b <= c && forall k :: k in s <==> (0 <= k < a || b <= k < c)
    ensures |s| == a + (c - b)
  {
    var low, high := set k | k in s && k < a, set k | k in s && b <= k;
    RangeSize(low, 0, a);
    RangeSize(high, b, c);
    assert s == low + high && low !! high;
  }

  lemma SplitSize<K>(a: set<K>, b: set<K>)
    ensures |a| == |a - b| + |a * b|
  {
    assert a == (a - b) + (a * b);
  }

  lemma Realize(c: Counts)
    requires PairArithmetic(c)
    ensures exists latest, selected :: Counted(latest, selected, c)
  {
    hide Below;
    var n, common := c.latest, c.latest - c.latestOnly;
    var latestKeys, selectedKeys := Below(0, n), Below(0, common) + Below(n, n + c.selectedOnly);
    var latest := map k | k in latestKeys :: true;
    var selected := map k | k in selectedKeys :: k >= c.changed;
    assert latest.Keys == latestKeys && selected.Keys == selectedKeys;
    RangeSize(latestKeys, 0, n);
    TwoRangesSize(selectedKeys, common, n, n + c.selectedOnly);
    RangeSize(latestKeys - selectedKeys, common, n);
    RangeSize(selectedKeys - latestKeys, n, n + c.selectedOnly);
    RangeSize(ChangedKeys(latest, selected), 0, c.changed);
    assert |latest| == |latest.Keys| && |selected| == |selected.Keys|;
    assert Counted(latest, selected, c);
  }

  /** Pair counts are accepted exactly when two finite pair tables have them. */
  lemma CountsAreRealizable(c: Counts)
    ensures PairArithmetic(c) <==> exists latest, selected :: Counted(latest, selected, c)
  {
    if PairArithmetic(c) { Realize(c); }
    if latest, selected :| Counted(latest, selected, c) {
      SplitSize(latest.Keys, selected.Keys);
      SplitSize(selected.Keys, latest.Keys);
      assert latest.Keys * selected.Keys == selected.Keys * latest.Keys;
      SubsetSize(ChangedKeys(latest, selected), latest.Keys * selected.Keys);
    }
  }

  /* ---------------- rows ---------------- */

  function Differences(c: Counts): nat { c.latestOnly + c.selectedOnly + c.changed }

  predicate ComparisonOk(c: Comparison) {
    && PairArithmetic(c.links) && PairArithmetic(c.routes)
    && c.presence.changed == (c.presence.latest != c.presence.selected)
    && ((!c.presence.changed && Differences(c.links) + Differences(c.routes) == 0) <==> c.status == NoNotableChange)
  }

  predicate RowOk(r: Row) {
    r.layout.Available? ==>
      && (!r.layout.present ==> r.layout.links == 0 && r.layout.routes == 0)
      && (r.layout.comparison.Some? ==> ComparisonOk(r.layout.comparison.value))
  }

  function ComparisonOf(r: Row): Option<Comparison> { if r.layout.Available? then r.layout.comparison else None }

  /** The comparison repeats both rows' evidence, and its status fits it. */
  predicate Matches(latest: Layout, selected: Layout, c: Comparison, hasIssue: bool)
    requires latest.Available? && selected.Available?
  {
    && c.presence.latest == latest.present && c.presence.selected == selected.present
    && c.links.latest == latest.links && c.links.selected == selected.links
    && c.routes.latest == latest.routes && c.routes.selected == selected.routes
    && ((c.status == WorthReviewing) <==>
          (hasIssue && (c.presence.changed || Differences(c.links) > 0 || Differences(c.routes) > 0)))
    && (c.presence.changed && !hasIssue && Differences(c.links) == 0 && Differences(c.routes) == 0 ==> c.status == Changed)
  }

  /** The statuses that fit: none without a difference, reviewing for a device with an issue, and no watching of presence alone. */
  predicate FitsStatus(presenceChanged: bool, differences: nat, hasIssue: bool, status: Status) {
    if !presenceChanged && differences == 0 then status == NoNotableChange
    else if hasIssue then status == WorthReviewing
    else status == Changed || (status == Watch && differences > 0)
  }

  /** A comparison of two layouts passes both checks exactly if it counts them rightly and its status fits. */
  lemma StatusExactly(latest: Layout, selected: Layout, c: Comparison, hasIssue: bool)
    requires latest.Available? && selected.Available?
    ensures
      ComparisonOk(c) && Matches(latest, selected, c, hasIssue) <==>
        && PairArithmetic(c.links) && PairArithmetic(c.routes)
        && c.presence == Presence(latest.present, selected.present, latest.present != selected.present)
        && c.links.latest == latest.links && c.links.selected == selected.links
        && c.routes.latest == latest.routes && c.routes.selected == selected.routes
        && FitsStatus(c.presence.changed, Differences(c.links) + Differences(c.routes), hasIssue, c.status)
  {
    hide PairArithmetic;
  }

  /** An earlier row, checked against the latest one. */
  predicate EarlierOk(latest: Row, r: Row, hasIssue: bool) {
    && !r.isLatest
    && ((latest.layout.Available? && r.layout.Available?) <==> ComparisonOf(r).Some?)
    && (ComparisonOf(r).Some? ==> Matches(latest.layout, r.layout, ComparisonOf(r).value, hasIssue))
  }

  predicate FreshIds(taken: set<string>, rows: seq<Row>) {
    forall i :: 0 <= i < |rows| ==> rows[i].id !in taken && forall j :: 0 <= j < i ==> rows[j].id != rows[i].id
  }

  /** All the checks that are not about facts. */
  predicate RowsOk(d: Detail) {
    && (d.latest.Some? ==> RowOk(d.latest.value))
    && (forall i :: 0 <= i < |d.snapshots| ==> RowOk(d.snapshots[i]))
    && (if d.latest.None? then d.snapshots == []
        else
          && d.latest.value.isLatest && ComparisonOf(d.latest.value).None?
          && FreshIds({d.latest.value.id}, d.snapshots)
          && forall i :: 0 <= i < |d.snapshots| ==> EarlierOk(d.latest.value, d.snapshots[i], d.hasIssue))
  }

  /* ---------------- facts ---------------- */

  function PresenceFact(device: string, latest: Row): LatestFact
    requires latest.layout.Available?
  {
    if latest.layout.present then Seen(device, latest.id) else Absent(device, latest.id)
  }

  function LinkFact(device: string, latest: Row): LatestFact
    requires latest.layout.Available?
  {
    if latest.layout.links > 0 then HasLinks(device, latest.layout.links) else NoLinks(device)
  }

  /** The facts a latest layout calls for. */
  function LatestFacts(device: string, latest: Option<Row>): seq<LatestFact> {
    if latest.None? || latest.value.layout.Limited? then []
    else [PresenceFact(device, latest.value), LinkFact(device, latest.value)]
  }

  function ChangedFacts(device: string, r: Row): (fs: seq<RowFact>)
    ensures |fs| <= 1 && (fs != [] ==> fs[0].LayoutChanged?)
  {
    match ComparisonOf(r)
    case None => []
    case Some(c) =>
      if c.status == NoNotableChange then []
      else [LayoutChanged(device, r.id, c.status, c.presence.latest, c.presence.selected, c.presence.changed)]
  }

  function SelectedLinkFacts(device: string, r: Row): (fs: seq<RowFact>)
    ensures |fs| <= 1 && (fs != [] ==> fs[0].SelectedLinks?)
  {
    if ComparisonOf(r).None? || r.layout.links == 0 then [] else [SelectedLinks(device, r.id, r.layout.links)]
  }

  function CoverageFacts(device: string, r: Row): (fs: seq<RowFact>)
    ensures |fs| <= 1 && (fs != [] ==> fs[0].CoverageAffects?)
  {
    if ComparisonOf(r).None? || r.coverage == Tracked then [] else [CoverageAffects(device, r.id, r.coverage)]
  }

  /** The facts a row's comparison calls for. */
  function RowFacts(device: string, r: Row): seq<RowFact> {
    SelectedLinkFacts(device, r) + ChangedFacts(device, r) + CoverageFacts(device, r)
  }

  function FactsOf(d: Detail, id: string): seq<RowFact> { if id in d.rowFacts then d.rowFacts[id] else [] }

  /** The facts are, up to order, those the rows call for, and there are no others. */
  ghost predicate FactsCanonical(d: Detail) {
    && multiset(d.deviceFacts) == multiset(LatestFacts(d.device, d.latest))
    && (forall r :: r in d.snapshots ==> multiset(FactsOf(d, r.id)) == multiset(RowFacts(d.device, r)))
    && (forall id :: id in d.rowFacts ==> exists r :: r in d.snapshots && r.id == id)
  }

  function IsPresence(): LatestFact -> bool { (f: LatestFact) => f.Seen? || f.Absent? }
  function IsLink(): LatestFact -> bool { (f: LatestFact) => f.HasLinks? || f.NoLinks? }
  function IsChanged(): RowFact -> bool { (f: RowFact) => f.LayoutChanged? }
  function IsSelectedLinks(): RowFact -> bool { (f: RowFact) => f.SelectedLinks? }
  function IsCoverage(): RowFact -> bool { (f: RowFact) => f.CoverageAffects? }

  lemma TwoParts<F(!new)>(p: F -> bool, q: F -> bool, s: seq<F>)
    requires forall f :: p(f) != q(f)
    ensures multiset(s) == multiset(Filter(p, s)) + multiset(Filter(q, s))
  {
    forall f ensures multiset(s)[f] == (multiset(Filter(p, s)) + multiset(Filter(q, s)))[f] {
      FilterCount(p, s, f);
      FilterCount(q, s, f);
    }
  }

  lemma ThreeParts<F(!new)>(p: F -> bool, q: F -> bool, r: F -> bool, s: seq<F>)
    requires forall f :: (p(f) && !q(f) && !r(f)) || (!p(f) && q(f) && !r(f)) || (!p(f) && !q(f) && r(f))
    ensures multiset(s) == multiset(Filter(p, s)) + multiset(Filter(q, s)) + multiset(Filter(r, s))
  {
    forall f ensures multiset(s)[f] == (multiset(Filter(p, s)) + multiset(Filter(q, s)) + multiset(Filter(r, s)))[f] {
      FilterCount(p, s, f);
      FilterCount(q, s, f);
      FilterCount(r, s, f);
    }
  }

  /** A part of a rearranged list that has at most one element is found as it is. */
  lemma SamePart<F(!new)>(p: F -> bool, s: seq<F>, t: seq<F>, part: seq<F>)
    requires multiset(s) == multiset(t) && Filter(p, t) == part && |part| <= 1
    ensures Filter(p, s) == part
  {
    FilterPermuted(p, s, t);
    if |part| == 1 { PermutedSingleton(part, Filter(p, s)); }
  }

  /** What the latest-fact checks establish. */
  ghost predicate LatestFactsOk(device: string, latest: Row, facts: seq<LatestFact>)
    requires latest.layout.Available?
  {
    Filter(IsPresence(), facts) == [PresenceFact(device, latest)] && Filter(IsLink(), facts) == [LinkFact(device, latest)]
  }

  lemma LatestFactsMeaning(device: string, latest: Row, facts: seq<LatestFact>)
    requires latest.layout.Available?
    ensures LatestFactsOk(device, latest, facts) <==> multiset(facts) == multiset(LatestFacts(device, Some(latest)))
  {
    var p, l := PresenceFact(device, latest), LinkFact(device, latest);
    var canon := LatestFacts(device, Some(latest));
    TwoParts(IsPresence(), IsLink(), facts);
    FilterAppend(IsPresence(), [p], l);
    FilterAppend(IsLink(), [p], l);
    FilterAppend(IsPresence(), [], p);
    FilterAppend(IsLink(), [], p);
    assert canon == [p] + [l] && [p] == [] + [p];
    hide Filter, PresenceFact, LinkFact;
    if multiset(facts) == multiset(canon) {
      SamePart(IsPresence(), facts, canon, [p]);
      SamePart(IsLink(), facts, canon, [l]);
    }
  }

  ghost predicate RowFactsOk(device: string, r: Row, facts: seq<RowFact>) {
    && Filter(IsSelectedLinks(), facts) == SelectedLinkFacts(device, r)
    && Filter(IsChanged(), facts) == ChangedFacts(device, r)
    && Filter(IsCoverage(), facts) == CoverageFacts(device, r)
  }

  lemma FilterThree<F(!new)>(p: F -> bool, a: seq<F>, b: seq<F>, c: seq<F>)
    requires |a| <= 1 && |b| <= 1 && |c| <= 1
    ensures Filter(p, a + b + c) ==
            (if a != [] && p(a[0]) then a else []) + (if b != [] && p(b[0]) then b else []) +
            (if c != [] && p(c[0]) then c else [])
  {
    FilterOne(p, [], a);
    FilterOne(p, a, b);
    FilterOne(p, a + b, c);
    assert [] + a == a;
  }

  lemma FilterOne<F(!new)>(p: F -> bool, s: seq<F>, a: seq<F>)
    requires |a| <= 1
    ensures Filter(p, s + a) == Filter(p, s) + if a != [] && p(a[0]) then a else []
    ensures Filter(p, []) == []
  {
    if a == [] {
      assert s + a == s;
    } else {
      assert a == [a[0]];
      FilterAppend(p, s, a[0]);
    }
  }

  lemma CanonicalParts(device: string, r: Row)
    ensures RowFactsOk(device, r, RowFacts(device, r))
  {
    var a, b, c := SelectedLinkFacts(device, r), ChangedFacts(device, r), CoverageFacts(device, r);
    FilterThree(IsSelectedLinks(), a, b, c);
    FilterThree(IsChanged(), a, b, c);
    FilterThree(IsCoverage(), a, b, c);
    hide SelectedLinkFacts, ChangedFacts, CoverageFacts, Filter;
    assert a + [] + [] == a && [] + b + [] == b && [] + [] + c == c;
  }

  lemma RowFactsMeaning(device: string, r: Row, facts: seq<RowFact>)
    ensures RowFactsOk(device, r, facts) <==> multiset(facts) == multiset(RowFacts(device, r))
  {
    hide Filter;
    var canon := RowFacts(device, r);
    CanonicalParts(device, r);
    ThreeParts(IsSelectedLinks(), IsChanged(), IsCoverage(), facts);
    ThreeParts(IsSelectedLinks(), IsChanged(), IsCoverage(), canon);
    if multiset(facts) == multiset(canon) {
      SamePart(IsSelectedLinks(), facts, canon, SelectedLinkFacts(device, r));
      SamePart(IsChanged(), facts, canon, ChangedFacts(device, r));
      SamePart(IsCoverage(), facts, canon, CoverageFacts(device, r));
    }
  }
}
