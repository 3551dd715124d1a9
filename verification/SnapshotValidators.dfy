/**
 What the two validators of snapshot-history documents accept, in Core and in the UI,
 and where they agree. `SnapshotCore` and `SnapshotUi` are the validators themselves.
 */
module SnapshotValidators {
  import opened Basics
  import opened Sequences
  import opened SnapshotHistory

  /** What Core accepts. */
  ghost predicate CoreOk(d: Detail) { RowsOk(d) && FactsCanonical(d) }

  lemma FactsNameTheirRow(device: string, r: Row, facts: seq<RowFact>)
    requires RowFactsOk(device, r, facts)
    ensures forall f :: f in facts ==> f.device == device && f.snapshot == r.id
  {
    hide Filter;
    FilterMembers(IsSelectedLinks(), facts);
    FilterMembers(IsChanged(), facts);
    FilterMembers(IsCoverage(), facts);
    forall f | f in facts ensures f.device == device && f.snapshot == r.id {
      assert f in Filter(IsSelectedLinks(), facts) || f in Filter(IsChanged(), facts) || f in Filter(IsCoverage(), facts);
    }
  }

  /** The facts of all rows, looked up as `lookup` does; `None` stands for a lookup that breaks. */
  ghost predicate AllRowFacts(device: string, rows: seq<Row>, lookup: string -> Option<seq<RowFact>>) {
    forall i :: 0 <= i < |rows| ==>
      lookup(rows[i].id).Some? && RowFactsOk(device, rows[i], lookup(rows[i].id).value)
  }

  predicate KnownRows(rowFacts: map<string, seq<RowFact>>, rows: seq<Row>) {
    forall id :: id in rowFacts ==> exists i :: 0 <= i < |rows| && rows[i].id == id
  }

  /** A dictionary lookup with an empty default. */
  function DictLookup(rowFacts: map<string, seq<RowFact>>): string -> Option<seq<RowFact>> {
    (id: string) => Some(if id in rowFacts then rowFacts[id] else [])
  }

  /** The fact checks, piece by piece, say that the facts are the canonical ones. */
  ghost predicate FactChecks(d: Detail, lookup: string -> Option<seq<RowFact>>) {
    && (if d.latest.None? || d.latest.value.layout.Limited? then d.deviceFacts == []
        else LatestFactsOk(d.device, d.latest.value, d.deviceFacts))
    && KnownRows(d.rowFacts, d.snapshots)
    && AllRowFacts(d.device, d.snapshots, lookup)
  }

  lemma LatestPart(device: string, latest: Option<Row>, facts: seq<LatestFact>)
    ensures multiset(facts) == multiset(LatestFacts(device, latest)) <==>
            if latest.None? || latest.value.layout.Limited? then facts == [] else LatestFactsOk(device, latest.value, facts)
  {
    hide LatestFactsOk, PresenceFact, LinkFact;
    if latest.Some? && latest.value.layout.Available? {
      LatestFactsMeaning(device, latest.value, facts);
    } else {
      NothingLike(facts);
    }
  }

  lemma RowPart(d: Detail, r: Row)
    ensures multiset(FactsOf(d, r.id)) == multiset(RowFacts(d.device, r)) <==>
            DictLookup(d.rowFacts)(r.id) == Some(FactsOf(d, r.id)) && RowFactsOk(d.device, r, FactsOf(d, r.id))
  {
    hide RowFacts, RowFactsOk;
    RowFactsMeaning(d.device, r, FactsOf(d, r.id));
  }

  lemma RowsPart(d: Detail)
    ensures (forall r :: r in d.snapshots ==> multiset(FactsOf(d, r.id)) == multiset(RowFacts(d.device, r))) <==>
            AllRowFacts(d.device, d.snapshots, DictLookup(d.rowFacts))
  {
    hide RowFacts, RowFactsOk, FactsOf, DictLookup;
    forall i | 0 <= i < |d.snapshots| ensures d.snapshots[i] in d.snapshots { }
    forall r: Row
      ensures multiset(FactsOf(d, r.id)) == multiset(RowFacts(d.device, r)) <==>
              DictLookup(d.rowFacts)(r.id).Some? && RowFactsOk(d.device, r, DictLookup(d.rowFacts)(r.id).value)
    {
      RowPart(d, r);
      Looked(d, r.id);
    }
  }

  lemma Looked(d: Detail, id: string)
    ensures DictLookup(d.rowFacts)(id) == Some(FactsOf(d, id))
  {
  }

  lemma KeysPart(d: Detail)
    ensures (forall id :: id in d.rowFacts ==> exists r :: r in d.snapshots && r.id == id) <==>
            KnownRows(d.rowFacts, d.snapshots)
  {
    if forall id :: id in d.rowFacts ==> exists r :: r in d.snapshots && r.id == id {
      forall id | id in d.rowFacts ensures exists i :: 0 <= i < |d.snapshots| && d.snapshots[i].id == id {
        var r :| r in d.snapshots && r.id == id;
        var i :| 0 <= i < |d.snapshots| && d.snapshots[i] == r;
        assert d.snapshots[i].id == id;
      }
    }
    if KnownRows(d.rowFacts, d.snapshots) {
      forall id | id in d.rowFacts ensures exists r :: r in d.snapshots && r.id == id {
        var i :| 0 <= i < |d.snapshots| && d.snapshots[i].id == id;
        assert d.snapshots[i] in d.snapshots;
      }
    }
  }

  lemma CanonicalMeaning(d: Detail)
    ensures FactsCanonical(d) <==> FactChecks(d, DictLookup(d.rowFacts))
  {
    hide RowFacts, LatestFactsOk, LatestFacts, AllRowFacts, KnownRows, FactsOf;
    LatestPart(d.device, d.latest, d.deviceFacts);
    RowsPart(d);
    KeysPart(d);
  }

  lemma NothingLike<F>(s: seq<F>)
    ensures multiset(s) == multiset{} <==> s == []
  {
    if s != [] { assert s[0] in multiset(s); }
  }

  /* ---------------- the UI ---------------- */

  /** A property lookup: an id that names an inherited property and has no entry finds something that is no list. */
  function PropertyLookup(inherited: set<string>, rowFacts: map<string, seq<RowFact>>): string -> Option<seq<RowFact>> {
    (id: string) => if id in rowFacts then Some(rowFacts[id]) else if id in inherited then None else Some([])
  }

  ghost predicate UiOk(inherited: set<string>, d: Detail) {
    RowsOk(d) && FactChecks(d, PropertyLookup(inherited, d.rowFacts))
  }

  /**
   The UI accepts what Core accepts, except documents with an earlier snapshot
   that has no facts entry and whose id names a property every object inherits.
   */
  lemma UiAgreesWithCore(inherited: set<string>, d: Detail)
    ensures UiOk(inherited, d) <==> CoreOk(d) && forall r :: r in d.snapshots ==> r.id in d.rowFacts || r.id !in inherited
  {
    hide FactsCanonical, RowsOk, RowFactsOk, LatestFactsOk;
    CanonicalMeaning(d);
    var js, py := PropertyLookup(inherited, d.rowFacts), DictLookup(d.rowFacts);
    if forall r :: r in d.snapshots ==> r.id in d.rowFacts || r.id !in inherited {
      forall i | 0 <= i < |d.snapshots| ensures js(d.snapshots[i].id) == py(d.snapshots[i].id) {
        assert d.snapshots[i] in d.snapshots;
      }
    } else {
      var r :| r in d.snapshots && r.id !in d.rowFacts && r.id in inherited;
      var i :| 0 <= i < |d.snapshots| && d.snapshots[i] == r;
      assert js(d.snapshots[i].id).None?;
    }
  }

  /** An earlier layout that is limited, under an id every object has a property for. */
  const INHERITED_ID := Detail(
    "0x00124b0000000001", false, Some(Row("s2", true, Tracked, Limited)),
    [Row("constructor", false, Tracked, Limited)], [], map[])

  /** Such a document: Core accepts it, the UI does not. */
  lemma InheritedIdDisagrees(inherited: set<string>)
    requires "constructor" in inherited
    ensures CoreOk(INHERITED_ID) && !UiOk(inherited, INHERITED_ID)
  {
    hide UiOk, CoreOk;
    var r := Row("constructor", false, Tracked, Limited);
    assert INHERITED_ID.snapshots == [r] && INHERITED_ID.snapshots[0] == r;
    assert RowsOk(INHERITED_ID) && FactsCanonical(INHERITED_ID);
    assert CoreOk(INHERITED_ID) by { Accepted(INHERITED_ID); }
    UiAgreesWithCore(inherited, INHERITED_ID);
  }

  lemma Accepted(d: Detail)
    requires RowsOk(d) && FactsCanonical(d)
    ensures CoreOk(d)
  {
  }
}
