/** Core's validator of snapshot-history documents: the model validators of its schemas, in their own order. */
module SnapshotCore {
  import opened Basics
  import opened Sequences
  import opened SnapshotHistory
  import opened SnapshotValidators

  method ValidateCounts(c: Counts) returns (ok: bool)
    ensures ok <==> PairArithmetic(c)
  {
    if c.latestOnly > c.latest || c.selectedOnly > c.selected { return false; }
    var latestCommon, selectedCommon := c.latest - c.latestOnly, c.selected - c.selectedOnly;
    if latestCommon != selectedCommon || c.changed > latestCommon { return false; }
    return true;
  }

  method ValidateComparison(c: Comparison) returns (ok: bool)
    ensures ok <==> ComparisonOk(c)
  {
    if c.presence.changed != (c.presence.latest != c.presence.selected) { return false; }
    ok := ValidateCounts(c.links);
    if !ok { return false; }
    ok := ValidateCounts(c.routes);
    if !ok { return false; }
    var differences :=
      (if c.presence.changed then 1 else 0) + c.links.latestOnly + c.links.selectedOnly + c.links.changed +
      c.routes.latestOnly + c.routes.selectedOnly + c.routes.changed;
    return (differences == 0) == (c.status == NoNotableChange);
  }

  method ValidateRow(r: Row) returns (ok: bool)
    ensures ok <==> RowOk(r)
  {
    if r.layout.Limited? { return true; }
    if r.layout.comparison.Some? {
      ok := ValidateComparison(r.layout.comparison.value);
      if !ok { return false; }
    }
    if !r.layout.present && (r.layout.links != 0 || r.layout.routes != 0) { return false; }
    return true;
  }

  method ValidateRows(rows: seq<Row>) returns (ok: bool)
    ensures ok <==> forall i :: 0 <= i < |rows| ==> RowOk(rows[i])
  {
    hide RowOk;
    for i := 0 to |rows|
      invariant forall j :: 0 <= j < i ==> RowOk(rows[j])
    {
      ok := ValidateRow(rows[i]);
      if !ok { return false; }
    }
    return true;
  }

  /** A comparison repeats the evidence of its rows, and its status fits the differences. */
  method ValidateEvidence(latest: Layout, selected: Layout, c: Comparison, hasIssue: bool) returns (ok: bool)
    requires latest.Available? && selected.Available?
    ensures ok <==> Matches(latest, selected, c, hasIssue)
  {
    if c.presence.latest != latest.present || c.presence.selected != selected.present
       || c.links.latest != latest.links || c.links.selected != selected.links
       || c.routes.latest != latest.routes || c.routes.selected != selected.routes
    {
      return false;
    }
    var linkDifferences := c.links.latestOnly + c.links.selectedOnly + c.links.changed;
    var routeDifferences := c.routes.latestOnly + c.routes.selectedOnly + c.routes.changed;
    var anyDifference := c.presence.changed || linkDifferences > 0 || routeDifferences > 0;
    if (c.status == WorthReviewing) != (hasIssue && anyDifference) { return false; }
    if c.presence.changed && !hasIssue && linkDifferences == 0 && routeDifferences == 0 && c.status != Changed {
      return false;
    }
    return true;
  }

  /** Earlier rows one by one: fresh ids, and a comparison where both layouts are available. */
  method ValidateEarlier(latest: Row, rows: seq<Row>, hasIssue: bool) returns (ok: bool)
    ensures ok <==> FreshIds({latest.id}, rows) && forall i :: 0 <= i < |rows| ==> EarlierOk(latest, rows[i], hasIssue)
  {
    hide Matches;
    var snapshotIds := {latest.id};
    for i := 0 to |rows|
      invariant snapshotIds == {latest.id} + set j | 0 <= j < i :: rows[j].id
      invariant FreshIds({latest.id}, rows[..i])
      invariant forall j :: 0 <= j < i ==> EarlierOk(latest, rows[j], hasIssue)
    {
      var selected := rows[i];
      if selected.isLatest || selected.id in snapshotIds { return false; }
      snapshotIds := snapshotIds + {selected.id};
      var comparable := latest.layout.Available? && selected.layout.Available?;
      var comparison := ComparisonOf(selected);
      if comparable != comparison.Some? { return false; }
      if comparison.Some? {
        ok := ValidateEvidence(latest.layout, selected.layout, comparison.value, hasIssue);
        if !ok { return false; }
      }
    }
    assert rows[..|rows|] == rows;
    return true;
  }

  /** The facts of an available latest layout: one about presence, one about links, each the expected one. */
  method ValidateLatestFacts(device: string, latest: Row, facts: seq<LatestFact>) returns (ok: bool)
    requires latest.layout.Available?
    ensures ok <==> LatestFactsOk(device, latest, facts)
  {
    hide Filter;
    var presenceFacts, linkFacts := Filter(IsPresence(), facts), Filter(IsLink(), facts);
    if |presenceFacts| != 1 || |linkFacts| != 1 { return false; }
    FilterMembers(IsPresence(), facts);
    FilterMembers(IsLink(), facts);
    var presence, link := presenceFacts[0], linkFacts[0];
    assert presence in presenceFacts && link in linkFacts;
    if presence.Seen? != latest.layout.present { return false; }
    if presence.device != device || presence.snapshot != latest.id { return false; }
    if link.HasLinks? != (latest.layout.links > 0) { return false; }
    if latest.layout.links > 0 {
      if link.device != device || link.count != latest.layout.links { return false; }
    } else if link.device != device {
      return false;
    }
    return true;
  }

  /** Every fact of a row names this device and this row. */
  method ValidateIdentity(device: string, id: string, facts: seq<RowFact>) returns (ok: bool)
    ensures ok <==> forall f :: f in facts ==> f.device == device && f.snapshot == id
  {
    for i := 0 to |facts|
      invariant forall j :: 0 <= j < i ==> facts[j].device == device && facts[j].snapshot == id
    {
      if facts[i].device != device || facts[i].snapshot != id { return false; }
    }
    return true;
  }

  /** The facts of one row, kind by kind, and the changed fact against the comparison at the end. */
  method ValidateRowFacts(device: string, r: Row, facts: seq<RowFact>) returns (ok: bool)
    ensures ok <==> RowFactsOk(device, r, facts)
  {
    hide Filter;
    if RowFactsOk(device, r, facts) { FactsNameTheirRow(device, r, facts); }
    var named := ValidateIdentity(device, r.id, facts);
    if !named { return false; }
    FilterMembers(IsSelectedLinks(), facts);
    FilterMembers(IsChanged(), facts);
    FilterMembers(IsCoverage(), facts);
    var changedFacts := Filter(IsChanged(), facts);
    var comparison := ComparisonOf(r);
    if |changedFacts| != (if comparison.Some? && comparison.value.status != NoNotableChange then 1 else 0) { return false; }
    var linkFacts := Filter(IsSelectedLinks(), facts);
    if |linkFacts| != (if comparison.Some? && r.layout.links > 0 then 1 else 0) { return false; }
    if linkFacts != [] {
      assert linkFacts[0] in linkFacts;
      if linkFacts[0].count != r.layout.links { return false; }
    }
    var coverageFacts := Filter(IsCoverage(), facts);
    if |coverageFacts| != (if comparison.Some? && r.coverage in {Off, Building, UnknownCoverage} then 1 else 0) { return false; }
    if coverageFacts != [] {
      assert coverageFacts[0] in coverageFacts;
      if coverageFacts[0].coverage != r.coverage { return false; }
    }
    if changedFacts == [] { return true; }
    assert changedFacts[0] in changedFacts;
    var f, c := changedFacts[0], comparison.value;
    return f.device == device && f.status == c.status && f.snapshot == r.id && f.latestPresent == c.presence.latest
        && f.selectedPresent == c.presence.selected && f.presenceChanged == c.presence.changed;
  }

  method ValidateAllRowFacts(device: string, rows: seq<Row>, rowFacts: map<string, seq<RowFact>>) returns (ok: bool)
    ensures ok <==> AllRowFacts(device, rows, DictLookup(rowFacts))
  {
    hide RowFactsOk;
    for i := 0 to |rows|
      invariant AllRowFacts(device, rows[..i], DictLookup(rowFacts))
    {
      var facts := if rows[i].id in rowFacts then rowFacts[rows[i].id] else [];
      ok := ValidateRowFacts(device, rows[i], facts);
      if !ok { return false; }
    }
    assert rows[..|rows|] == rows;
    return true;
  }

  method ValidateSnapshotComparisons(d: Detail) returns (ok: bool)
    ensures ok <==> CoreOk(d)
  {
    hide RowOk, FreshIds, EarlierOk, RowFactsOk, LatestFactsOk, RowFacts;
    CanonicalMeaning(d);
    if d.latest.Some? {
      ok := ValidateRow(d.latest.value);
      if !ok { return false; }
    }
    ok := ValidateRows(d.snapshots);
    if !ok { return false; }
    if d.latest.None? {
      if d.snapshots != [] { return false; }
      if d.deviceFacts != [] { return false; }
      return d.rowFacts == map[];
    }
    var latest := d.latest.value;
    if !latest.isLatest || ComparisonOf(latest).Some? { return false; }
    if latest.layout.Limited? {
      if d.deviceFacts != [] { return false; }
    } else {
      ok := ValidateLatestFacts(d.device, latest, d.deviceFacts);
      if !ok { return false; }
    }
    ok := ValidateEarlier(latest, d.snapshots, d.hasIssue);
    if !ok { return false; }
    if !KnownRows(d.rowFacts, d.snapshots) { return false; }
    ok := ValidateAllRowFacts(d.device, d.snapshots, d.rowFacts);
  }
}
