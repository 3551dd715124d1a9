/** The UI's parser of snapshot-history documents, after field typing, in its own order. */
module SnapshotUi {
  import opened Basics
  import opened Sequences
  import opened SnapshotHistory
  import opened SnapshotValidators

  method ParseCompareCounts(c: Counts) returns (ok: bool)
    ensures ok <==> PairArithmetic(c)
  {
    return !(c.latestOnly > c.latest || c.selectedOnly > c.selected
             || c.latest - c.latestOnly != c.selected - c.selectedOnly || c.changed > c.latest - c.latestOnly);
  }

  method ParseComparison(c: Comparison) returns (ok: bool)
    ensures ok <==> ComparisonOk(c)
  {
    if c.presence.changed != (c.presence.latest != c.presence.selected) { return false; }
    var links := ParseCompareCounts(c.links);
    var routes := ParseCompareCounts(c.routes);
    if !links || !routes { return false; }
    var differenceCount :=
      (if c.presence.changed then 1 else 0) + c.links.latestOnly + c.links.selectedOnly + c.links.changed +
      c.routes.latestOnly + c.routes.selectedOnly + c.routes.changed;
    return (differenceCount == 0) == (c.status == NoNotableChange);
  }

  /** A row by itself; a latest row has no comparison. */
  method ParseRow(r: Row) returns (ok: bool)
    ensures ok <==> RowOk(r) && (r.isLatest ==> ComparisonOf(r).None?)
  {
    hide ComparisonOk;
    match r.layout
    case Limited => return true;
    case Available(present, links, routes, comparison) =>
      if !present && (links != 0 || routes != 0) { return false; }
      if comparison.Some? {
        ok := ParseComparison(comparison.value);
        if !ok { return false; }
      }
      return !(r.isLatest && comparison.Some?);
  }

  method ParseRows(rows: seq<Row>) returns (ok: bool)
    ensures ok <==> forall i :: 0 <= i < |rows| ==> RowOk(rows[i]) && (rows[i].isLatest ==> ComparisonOf(rows[i]).None?)
  {
    hide RowOk, ComparisonOf;
    for i := 0 to |rows|
      invariant forall j :: 0 <= j < i ==> RowOk(rows[j]) && (rows[j].isLatest ==> ComparisonOf(rows[j]).None?)
    {
      ok := ParseRow(rows[i]);
      if !ok { return false; }
    }
    return true;
  }

  method SomeLatest(rows: seq<Row>) returns (found: bool)
    ensures found <==> exists i :: 0 <= i < |rows| && rows[i].isLatest
  {
    for i := 0 to |rows|
      invariant forall j :: 0 <= j < i ==> !rows[j].isLatest
    {
      if rows[i].isLatest { return true; }
    }
    return false;
  }

  /** What the parser asks of a row's comparison. */
  ghost predicate ComparisonFits(latest: Option<Row>, r: Row, hasIssue: bool) {
    && ((latest.Some? && latest.value.layout.Available? && r.layout.Available?) <==> ComparisonOf(r).Some?)
    && (ComparisonOf(r).Some? ==> Matches(latest.value.layout, r.layout, ComparisonOf(r).value, hasIssue))
  }

  method CheckComparison(latest: Option<Row>, r: Row, hasIssue: bool) returns (ok: bool)
    ensures ok <==> ComparisonFits(latest, r, hasIssue)
  {
    var required := latest.Some? && latest.value.layout.Available? && r.layout.Available?;
    var comparison := ComparisonOf(r);
    if required != comparison.Some? { return false; }
    if comparison.None? { return true; }
    var c, shown, row := comparison.value, latest.value.layout, r.layout;
    if c.presence.latest != shown.present || c.presence.selected != row.present { return false; }
    if c.links.latest != shown.links || c.links.selected != row.links { return false; }
    if c.routes.latest != shown.routes || c.routes.selected != row.routes { return false; }
    var linkDifferences := c.links.latestOnly + c.links.selectedOnly + c.links.changed;
    var routeDifferences := c.routes.latestOnly + c.routes.selectedOnly + c.routes.changed;
    var anyDifference := c.presence.changed || linkDifferences > 0 || routeDifferences > 0;
    if (c.status == WorthReviewing) != (hasIssue && anyDifference) { return false; }
    return !(c.presence.changed && !hasIssue && linkDifferences == 0 && routeDifferences == 0 && c.status != Changed);
  }

  /** The ids of the document once each, and every comparison in order. */
  method CheckSnapshots(latest: Option<Row>, rows: seq<Row>, hasIssue: bool) returns (ok: bool)
    ensures ok <==> FreshIds(if latest.Some? then {latest.value.id} else {}, rows) &&
                    forall i :: 0 <= i < |rows| ==> ComparisonFits(latest, rows[i], hasIssue)
  {
    hide ComparisonFits;
    ghost var taken := if latest.Some? then {latest.value.id} else {};
    var snapshotIds := if latest.Some? then {latest.value.id} else {};
    for i := 0 to |rows|
      invariant snapshotIds == taken + set j | 0 <= j < i :: rows[j].id
      invariant FreshIds(taken, rows[..i])
      invariant forall j :: 0 <= j < i ==> ComparisonFits(latest, rows[j], hasIssue)
    {
      if rows[i].id in snapshotIds { return false; }
      snapshotIds := snapshotIds + {rows[i].id};
      ok := CheckComparison(latest, rows[i], hasIssue);
      if !ok { return false; }
    }
    assert rows[..|rows|] == rows;
    return true;
  }

  /** The facts about the latest layout, each compared with the expected one. */
  method CheckLatestFacts(device: string, latest: Row, facts: seq<LatestFact>) returns (ok: bool)
    requires latest.layout.Available?
    ensures ok <==> LatestFactsOk(device, latest, facts)
  {
    hide Filter;
    var presenceFacts, linkFacts := Filter(IsPresence(), facts), Filter(IsLink(), facts);
    if |presenceFacts| != 1 || |linkFacts| != 1 { return false; }
    FilterMembers(IsPresence(), facts);
    FilterMembers(IsLink(), facts);
    var presence, link := presenceFacts[0], linkFacts[0];
    assert presence in presenceFacts && link in linkFacts;
    if (if latest.layout.present then !presence.Seen? else !presence.Absent?)
       || presence.device != device || presence.snapshot != latest.id
    {
      return false;
    }
    if (if latest.layout.links > 0 then !link.HasLinks? else !link.NoLinks?) || link.device != device { return false; }
    return !(link.HasLinks? && link.count != latest.layout.links);
  }

  /** Whether some fact names another device or another row. */
  method SomeForeign(device: string, id: string, facts: seq<RowFact>) returns (found: bool)
    ensures found <==> exists f :: f in facts && (f.device != device || f.snapshot != id)
  {
    for i := 0 to |facts|
      invariant forall j :: 0 <= j < i ==> facts[j].device == device && facts[j].snapshot == id
    {
      if facts[i].device != device || facts[i].snapshot != id { return true; }
    }
    return false;
  }

  /** The facts of one row; the changed fact counts only where a change is expected. */
  method CheckRowFacts(device: string, r: Row, facts: seq<RowFact>) returns (ok: bool)
    ensures ok <==> RowFactsOk(device, r, facts)
  {
    hide Filter;
    if RowFactsOk(device, r, facts) { FactsNameTheirRow(device, r, facts); }
    var foreign := SomeForeign(device, r.id, facts);
    if foreign { return false; }
    FilterMembers(IsSelectedLinks(), facts);
    FilterMembers(IsChanged(), facts);
    FilterMembers(IsCoverage(), facts);
    var comparison := ComparisonOf(r);
    var changedFacts := Filter(IsChanged(), facts);
    var expectsChanged := comparison.Some? && comparison.value.status != NoNotableChange;
    if |changedFacts| != (if expectsChanged then 1 else 0) { return false; }
    var linkFacts := Filter(IsSelectedLinks(), facts);
    var expectsLinks := comparison.Some? && r.layout.Available? && r.layout.links > 0;
    if |linkFacts| != (if expectsLinks then 1 else 0) { return false; }
    if |linkFacts| > 0 {
      assert linkFacts[0] in linkFacts;
      if r.layout.Limited? || linkFacts[0].count != r.layout.links { return false; }
    }
    var coverageFacts := Filter(IsCoverage(), facts);
    var expectsCoverage := comparison.Some? && (r.coverage == Off || r.coverage == Building || r.coverage == UnknownCoverage);
    if |coverageFacts| != (if expectsCoverage then 1 else 0) { return false; }
    if |coverageFacts| > 0 {
      assert coverageFacts[0] in coverageFacts;
      if coverageFacts[0].coverage != r.coverage { return false; }
    }
    if !expectsChanged { return true; }
    assert changedFacts[0] in changedFacts;
    var f, c := changedFacts[0], comparison.value;
    if f.device != device || f.status != c.status || f.snapshot != r.id { return false; }
    if f.latestPresent != c.presence.latest || f.selectedPresent != c.presence.selected { return false; }
    return f.presenceChanged == c.presence.changed;
  }

  /** Each row's facts by property lookup; what an inherited property finds is no list, and the walk breaks. */
  method CheckAllRowFacts(
    device: string, rows: seq<Row>, inherited: set<string>, rowFacts: map<string, seq<RowFact>>) returns (ok: bool)
    ensures ok <==> AllRowFacts(device, rows, PropertyLookup(inherited, rowFacts))
  {
    hide RowFactsOk;
    for i := 0 to |rows|
      invariant AllRowFacts(device, rows[..i], PropertyLookup(inherited, rowFacts))
    {
      var id := rows[i].id;
      if id !in rowFacts && id in inherited { return false; }
      var facts := if id in rowFacts then rowFacts[id] else [];
      ok := CheckRowFacts(device, rows[i], facts);
      if !ok { return false; }
    }
    assert rows[..|rows|] == rows;
    return true;
  }

  method ParseSnapshotHistoryDetail(inherited: set<string>, d: Detail) returns (ok: bool)
    ensures ok <==> UiOk(inherited, d)
  {
    hide RowOk, RowFactsOk, LatestFactsOk, Matches;
    if d.latest.Some? {
      ok := ParseRow(d.latest.value);
      if !ok || !d.latest.value.isLatest { return false; }
    }
    ok := ParseRows(d.snapshots);
    if !ok { return false; }
    var latestAmong := SomeLatest(d.snapshots);
    if latestAmong { return false; }
    if d.latest.None? && d.snapshots != [] { return false; }
    ok := CheckSnapshots(d.latest, d.snapshots, d.hasIssue);
    if !ok { return false; }
    if d.latest.None? || d.latest.value.layout.Limited? {
      if d.deviceFacts != [] { return false; }
    } else {
      ok := CheckLatestFacts(d.device, d.latest.value, d.deviceFacts);
      if !ok { return false; }
    }
    if !KnownRows(d.rowFacts, d.snapshots) { return false; }
    ok := CheckAllRowFacts(d.device, d.snapshots, inherited, d.rowFacts);
  }
}
