/**
 Decision summaries: how Core folds badges into counts, and the three validators
 that check such counts, in Core, in the companion integration and in the UI.
 */
module DecisionSummary {
  import opened Basics
  import opened Sequences

  /** A JSON value as far as the validators look at it; `Other` is anything else, or a missing field. */
  datatype Json = Whole(n: int) | Text(t: string) | Table(entries: seq<Entry>) | Other

  datatype Entry = Entry(key: string, value: Json)

  /** A summary document; `extras` says whether it has fields besides these. */
  datatype Document = Document(
    subjectCount: Json, overall: Json, highest: Json, statusCounts: Json, priorityCounts: Json, coverage: Json,
    extras: bool)

  datatype Badge = Badge(status: string, priority: string)

  function StatusOrder(): seq<string> {
    ["review_first", "worth_reviewing", "improve_data_coverage", "watch", "changed", "informational",
     "no_notable_change", "data_unavailable"]
  }

  function PriorityOrder(): seq<string> { ["high", "medium", "low", "none"] }

  const LOWEST_STATUS := "data_unavailable"
  const LOWEST_PRIORITY := "none"

  /* ---------------- the first of an order ---------------- */

  /** The first member of `order` with the property, or the bottom. */
  function Leading<K>(order: seq<K>, p: K -> bool, bottom: K): K {
    if order == [] then bottom else if p(order[0]) then order[0] else Leading(order[1..], p, bottom)
  }

  /** It is the member with the property that no other one stands before, and the bottom only where there is none. */
  lemma {:induction false} LeadingMeaning<K(!new)>(order: seq<K>, p: K -> bool, bottom: K, i: nat)
    ensures i < |order| && p(order[i]) && (forall j :: 0 <= j < i ==> !p(order[j])) ==> Leading(order, p, bottom) == order[i]
    ensures (forall j :: 0 <= j < |order| ==> !p(order[j])) ==> Leading(order, p, bottom) == bottom
  {
    if order != [] && !p(order[0]) {
      LeadingMeaning(order[1..], p, bottom, if i > 0 then i - 1 else 0);
    }
  }

  lemma {:induction false} LeadingSame<K(!new)>(order: seq<K>, p: K -> bool, q: K -> bool, bottom: K)
    requires forall k :: k in order ==> p(k) == q(k)
    ensures Leading(order, p, bottom) == Leading(order, q, bottom)
  {
    if order != [] { LeadingSame(order[1..], p, q, bottom); }
  }

  method FirstOf(order: seq<string>, counts: map<string, int>, bottom: string) returns (found: string)
    ensures found == Leading(order, Positive(counts), bottom)
  {
    found := bottom;
    for i := 0 to |order|
      invariant Leading(order, Positive(counts), bottom) == Leading(order[i..], Positive(counts), bottom)
      invariant found == bottom
    {
      assert order[i..][1..] == order[i + 1..];
      if order[i] in counts && counts[order[i]] > 0 { return order[i]; }
    }
  }

  function Positive(counts: map<string, int>): string -> bool { (k: string) => k in counts && counts[k] > 0 }

  function Occurs<K(==)>(list: seq<K>): K -> bool { (k: K) => k in list }

  /* ---------------- count tables ---------------- */

  predicate Count(v: Json) { v.Whole? && v.n >= 0 }

  predicate DistinctKeys(entries: seq<Entry>) {
    forall i, j :: 0 <= i < j < |entries| ==> entries[i].key != entries[j].key
  }

  /** A count table: known keys, each with a whole, non-negative count. */
  predicate Counts(v: Json, known: seq<string>) {
    v.Table? && forall i :: 0 <= i < |v.entries| ==> v.entries[i].key in known && Count(v.entries[i].value)
  }

  predicate CountEntries(entries: seq<Entry>) { forall i :: 0 <= i < |entries| ==> Count(entries[i].value) }

  function Sum(entries: seq<Entry>): int
    requires CountEntries(entries)
  {
    if entries == [] then 0 else Sum(entries[..|entries| - 1]) + entries[|entries| - 1].value.n
  }

  /** The table as a dictionary: a later entry of a key replaces an earlier one. */
  function Dict(entries: seq<Entry>): (m: map<string, int>)
    requires CountEntries(entries)
    ensures forall k :: k in m ==> m[k] >= 0
  {
    if entries == [] then map[]
    else Dict(entries[..|entries| - 1])[entries[|entries| - 1].key := entries[|entries| - 1].value.n]
  }

  function At(m: map<string, int>, k: string): int { if k in m then m[k] else 0 }

  /** Reads a count table; nothing if it is not one. */
  method ReadCounts(v: Json, known: seq<string>) returns (r: Option<(map<string, int>, int)>)
    ensures r.Some? <==> Counts(v, known)
    ensures r.Some? ==> CountEntries(v.entries) && r.value.0 == Dict(v.entries) && r.value.1 == Sum(v.entries)
  {
    if !v.Table? { return None; }
    var entries := v.entries;
    var counts, total: int := map[], 0;
    for i := 0 to |entries|
      invariant forall j :: 0 <= j < i ==> entries[j].key in known && Count(entries[j].value)
      invariant counts == Dict(entries[..i]) && total == Sum(entries[..i])
    {
      assert entries[..i + 1][..i] == entries[..i];
      if entries[i].key !in known { return None; }
      if !Count(entries[i].value) { return None; }
      counts := counts[entries[i].key := entries[i].value.n];
      total := total + entries[i].value.n;
    }
    assert entries[..|entries|] == entries;
    return Some((counts, total));
  }

  /* ---------------- what the validators accept ---------------- */

  predicate Known(v: Json, known: seq<string>) { v.Text? && v.t in known }

  /** Every field is there with the right type, and every key is known. */
  ghost predicate WellTyped(d: Document) {
    && Count(d.subjectCount) && Count(d.coverage)
    && Known(d.overall, StatusOrder()) && Known(d.highest, PriorityOrder())
    && Counts(d.statusCounts, StatusOrder()) && Counts(d.priorityCounts, PriorityOrder())
  }

  /** Both tables add up to the subjects, and the two verdicts lead their orders. */
  ghost predicate Folds(d: Document)
    requires WellTyped(d)
  {
    && Sum(d.statusCounts.entries) == d.subjectCount.n && Sum(d.priorityCounts.entries) == d.subjectCount.n
    && d.overall.t == Leading(StatusOrder(), Positive(Dict(d.statusCounts.entries)), LOWEST_STATUS)
    && d.highest.t == Leading(PriorityOrder(), Positive(Dict(d.priorityCounts.entries)), LOWEST_PRIORITY)
  }

  ghost predicate Lowest(d: Document)
    requires WellTyped(d)
  {
    d.overall.t == LOWEST_STATUS && d.highest.t == LOWEST_PRIORITY
  }

  ghost predicate HacsOk(d: Document) {
    WellTyped(d) &&
    if d.subjectCount.n == 0 then d.statusCounts.entries == [] && d.priorityCounts.entries == [] && Lowest(d) else Folds(d)
  }

  ghost predicate CoreOk(d: Document) { HacsOk(d) && !d.extras }

  ghost predicate UiOk(d: Document) {
    WellTyped(d) &&
    if d.subjectCount.n == 0 then Sum(d.statusCounts.entries) == 0 && Sum(d.priorityCounts.entries) == 0 && Lowest(d)
    else Folds(d)
  }

  /** The fold itself: totals, then both verdicts against the first positive count of their order. */
  method CheckFold(d: Document, statuses: (map<string, int>, int), priorities: (map<string, int>, int)) returns (ok: bool)
    requires WellTyped(d)
    requires statuses == (Dict(d.statusCounts.entries), Sum(d.statusCounts.entries))
    requires priorities == (Dict(d.priorityCounts.entries), Sum(d.priorityCounts.entries))
    ensures ok <==> Folds(d)
  {
    hide StatusOrder, PriorityOrder, Dict, Sum, Leading;
    if statuses.1 != d.subjectCount.n || priorities.1 != d.subjectCount.n { return false; }
    var expectedOverall := FirstOf(StatusOrder(), statuses.0, LOWEST_STATUS);
    if d.overall.t != expectedOverall { return false; }
    var expectedPriority := FirstOf(PriorityOrder(), priorities.0, LOWEST_PRIORITY);
    return d.highest.t == expectedPriority;
  }

  /** Core's model: field types first, then the fold. */
  method CoreAccepts(d: Document) returns (ok: bool)
    ensures ok <==> CoreOk(d)
  {
    hide StatusOrder, PriorityOrder, Dict, Sum, Leading;
    if d.extras || !Count(d.subjectCount) || !Count(d.coverage) { return false; }
    if !Known(d.overall, StatusOrder()) || !Known(d.highest, PriorityOrder()) { return false; }
    var statuses := ReadCounts(d.statusCounts, StatusOrder());
    var priorities := ReadCounts(d.priorityCounts, PriorityOrder());
    if statuses.None? || priorities.None? { return false; }
    if d.subjectCount.n == 0 {
      if d.statusCounts.entries != [] || d.priorityCounts.entries != [] { return false; }
      if d.overall.t != LOWEST_STATUS { return false; }
      return d.highest.t == LOWEST_PRIORITY;
    }
    ok := CheckFold(d, statuses.value, priorities.value);
  }

  /** The companion integration's check, which ignores unknown fields. */
  method ValidateDecisionCountSummary(d: Document) returns (ok: bool)
    ensures ok <==> HacsOk(d)
  {
    hide StatusOrder, PriorityOrder, Dict, Sum, Leading;
    if !Count(d.subjectCount) { return false; }
    if !Known(d.overall, StatusOrder()) { return false; }
    if !Known(d.highest, PriorityOrder()) { return false; }
    if !Count(d.coverage) { return false; }
    var statuses := ReadCounts(d.statusCounts, StatusOrder());
    if statuses.None? { return false; }
    var priorities := ReadCounts(d.priorityCounts, PriorityOrder());
    if priorities.None? { return false; }
    if d.subjectCount.n == 0 {
      return d.statusCounts.entries == [] && d.priorityCounts.entries == [] &&
             d.overall.t == LOWEST_STATUS && d.highest.t == LOWEST_PRIORITY;
    }
    ok := CheckFold(d, statuses.value, priorities.value);
  }

  /** The UI's parser, which looks at totals where the others look at tables. */
  method ParseDecisionCountSummary(d: Document) returns (ok: bool)
    ensures ok <==> UiOk(d)
  {
    hide StatusOrder, PriorityOrder, Dict, Sum, Leading;
    if !Count(d.subjectCount) { return false; }
    if !Known(d.overall, StatusOrder()) { return false; }
    if !Known(d.highest, PriorityOrder()) { return false; }
    if !Count(d.coverage) { return false; }
    var statuses := ReadCounts(d.statusCounts, StatusOrder());
    if statuses.None? { return false; }
    var priorities := ReadCounts(d.priorityCounts, PriorityOrder());
    if priorities.None? { return false; }
    if d.subjectCount.n == 0 {
      if statuses.value.1 != 0 || priorities.value.1 != 0 { return false; }
      return d.overall.t == LOWEST_STATUS && d.highest.t == LOWEST_PRIORITY;
    }
    ok := CheckFold(d, statuses.value, priorities.value);
  }

  lemma {:induction false} ZeroSum(entries: seq<Entry>)
    requires CountEntries(entries)
    ensures Sum(entries) >= 0
    ensures Sum(entries) == 0 <==> forall i :: 0 <= i < |entries| ==> entries[i].value.n == 0
  {
    if entries != [] { ZeroSum(entries[..|entries| - 1]); }
  }

  /**
   The UI accepts what the integration accepts, and besides only empty summaries
   whose tables list keys, all with count zero.
   */
  lemma UiAcceptsMore(d: Document)
    ensures HacsOk(d) ==> UiOk(d)
    ensures
      UiOk(d) && !HacsOk(d) <==>
      && WellTyped(d) && d.subjectCount.n == 0 && Lowest(d)
      && (d.statusCounts.entries != [] || d.priorityCounts.entries != [])
      && (forall i :: 0 <= i < |d.statusCounts.entries| ==> d.statusCounts.entries[i].value.n == 0)
      && (forall i :: 0 <= i < |d.priorityCounts.entries| ==> d.priorityCounts.entries[i].value.n == 0)
  {
    hide StatusOrder, PriorityOrder, Leading, Dict;
    if WellTyped(d) {
      ZeroSum(d.statusCounts.entries);
      ZeroSum(d.priorityCounts.entries);
    }
  }

  /* ---------------- realizable summaries ---------------- */

  function Statuses(badges: seq<Badge>): seq<string> { Map((b: Badge) => b.status, badges) }
  function Priorities(badges: seq<Badge>): seq<string> { Map((b: Badge) => b.priority, badges) }

  /** The table says how often each key occurs in the list. */
  ghost predicate Tallies(entries: seq<Entry>, list: seq<string>)
    requires CountEntries(entries)
  {
    forall k :: At(Dict(entries), k) == multiset(list)[k]
  }

  /** The summary is what folding these badges gives: their number, their tallies, and the foremost of each. */
  ghost predicate Realizes(badges: seq<Badge>, d: Document)
    requires WellTyped(d)
  {
    && |badges| == d.subjectCount.n
    && Tallies(d.statusCounts.entries, Statuses(badges)) && Tallies(d.priorityCounts.entries, Priorities(badges))
    && d.overall.t == Leading(StatusOrder(), Occurs(Statuses(badges)), LOWEST_STATUS)
    && d.highest.t == Leading(PriorityOrder(), Occurs(Priorities(badges)), LOWEST_PRIORITY)
  }

  function Repeat<K(!new)>(k: K, n: nat): (r: seq<K>)
    ensures |r| == n && multiset(r)[k] == n
    ensures forall x :: x != k ==> multiset(r)[x] == 0
  {
    if n == 0 then [] else Repeat(k, n - 1) + [k]
  }

  /** A list with the tallies of a table. */
  function Expand(entries: seq<Entry>): seq<string>
    requires CountEntries(entries)
  {
    if entries == [] then []
    else Expand(entries[..|entries| - 1]) + Repeat(entries[|entries| - 1].key, entries[|entries| - 1].value.n)
  }

  lemma {:induction false} UnlistedKey(entries: seq<Entry>, k: string)
    requires CountEntries(entries) && forall i :: 0 <= i < |entries| ==> entries[i].key != k
    ensures k !in Dict(entries)
  {
    if entries != [] { UnlistedKey(entries[..|entries| - 1], k); }
  }

  lemma {:induction false} ExpandTallies(entries: seq<Entry>)
    requires CountEntries(entries) && DistinctKeys(entries)
    ensures |Expand(entries)| == Sum(entries) && Tallies(entries, Expand(entries))
  {
    if entries != [] {
      var init, last := entries[..|entries| - 1], entries[|entries| - 1];
      ExpandTallies(init);
      UnlistedKey(init, last.key);
      hide Repeat, Dict, Expand, Sum;
      ExpandStep(entries);
      forall k ensures At(Dict(entries), k) == multiset(Expand(entries))[k] {
        assert At(Dict(init), k) == multiset(Expand(init))[k];
      }
    }
  }

  lemma ExpandStep(entries: seq<Entry>)
    requires CountEntries(entries) && entries != []
    ensures
      var init, last := entries[..|entries| - 1], entries[|entries| - 1];
      && Dict(entries) == Dict(init)[last.key := last.value.n]
      && |Expand(entries)| == |Expand(init)| + last.value.n && Sum(entries) == Sum(init) + last.value.n
      && (forall k :: multiset(Expand(entries))[k] == multiset(Expand(init))[k] + if k == last.key then last.value.n else 0)
  {
  }

  lemma TallySum(entries: seq<Entry>, list: seq<string>)
    requires CountEntries(entries) && DistinctKeys(entries) && Tallies(entries, list)
    ensures Sum(entries) == |list|
  {
    hide Expand, Dict, Sum;
    ExpandTallies(entries);
    forall k ensures multiset(list)[k] == multiset(Expand(entries))[k] {
      assert At(Dict(entries), k) == multiset(list)[k];
      assert At(Dict(entries), k) == multiset(Expand(entries))[k];
    }
    assert multiset(list) == multiset(Expand(entries));
    assert |multiset(list)| == |multiset(Expand(entries))|;
  }

  lemma TallyLeading(order: seq<string>, entries: seq<Entry>, list: seq<string>, bottom: string)
    requires CountEntries(entries) && Tallies(entries, list)
    ensures Leading(order, Positive(Dict(entries)), bottom) == Leading(order, Occurs(list), bottom)
  {
    hide Dict, Leading;
    forall k ensures Positive(Dict(entries))(k) == Occurs(list)(k) {
      assert At(Dict(entries), k) == multiset(list)[k];
      assert k in list <==> k in multiset(list);
    }
    LeadingSame(order, Positive(Dict(entries)), Occurs(list), bottom);
  }

  /** A nonempty summary is accepted exactly when some list of badges folds to it. */
  lemma AcceptedMeansRealizable(d: Document)
    requires WellTyped(d) && d.subjectCount.n > 0
    requires DistinctKeys(d.statusCounts.entries) && DistinctKeys(d.priorityCounts.entries)
    ensures HacsOk(d) <==> exists badges :: Realizes(badges, d)
  {
    hide StatusOrder, PriorityOrder, Leading, Dict, Sum, Expand, Tallies;
    var se, pe := d.statusCounts.entries, d.priorityCounts.entries;
    if HacsOk(d) {
      ExpandTallies(se);
      ExpandTallies(pe);
      var ss, ps := Expand(se), Expand(pe);
      var badges := seq(|ss|, i requires 0 <= i < |ss| && |ps| == |ss| => Badge(ss[i], ps[i]));
      assert Statuses(badges) == ss && Priorities(badges) == ps;
      TallyLeading(StatusOrder(), se, ss, LOWEST_STATUS);
      TallyLeading(PriorityOrder(), pe, ps, LOWEST_PRIORITY);
      assert Realizes(badges, d);
    }
    if badges :| Realizes(badges, d) {
      TallySum(se, Statuses(badges));
      TallySum(pe, Priorities(badges));
      TallyLeading(StatusOrder(), se, Statuses(badges), LOWEST_STATUS);
      TallyLeading(PriorityOrder(), pe, Priorities(badges), LOWEST_PRIORITY);
    }
  }
}
