/**
 When a success on display is certain although failed publishes may have been stored:
 exactly while no publish that failed since the last full one posted other rows.
 */
module SyncStored {
  import opened Basics
  import opened EnrichmentTypes
  import opened SyncOutcome
  import opened SyncProtocol
  import opened SyncCache
  import opened SyncTruth

  /** The rows of publishes that failed since the last full one. */
  function Lost(cfg: Config, inputs: seq<Input>): set<seq<Row>> {
    if inputs == [] then {}
    else
      var init, input := inputs[..|inputs| - 1], inputs[|inputs| - 1];
      var s, lost := Run(cfg, init), Lost(cfg, init);
      if !(input.PublishReplies? && Enabled(s, input)) then lost
      else
        var build := s.running[input.index].build;
        if Kept(build, input.publish) then {}
        else if Unclear(build, input.publish) then lost
        else lost + {build.devices}
  }

  function Last(worlds: seq<World>): World
    requires worlds != []
  {
    worlds[|worlds| - 1]
  }

  lemma HistoryInit(cfg: Config, worlds: seq<World>, inputs: seq<Input>)
    requires inputs != [] && History(cfg, worlds, inputs, true)
    ensures History(cfg, worlds[..|worlds| - 1], inputs[..|inputs| - 1], true)
  {
    hide Next, WellFormedInput;
    var before, init := worlds[..|worlds| - 1], inputs[..|inputs| - 1];
    forall i | 0 <= i < |init| ensures Next(cfg, before[i], init[i], before[i + 1], true) {
      assert Next(cfg, worlds[i], inputs[i], worlds[i + 1], true);
    }
  }

  lemma HistoryMore(cfg: Config, worlds: seq<World>, inputs: seq<Input>, w: World)
    requires inputs != [] && WellFormedInput(inputs[|inputs| - 1])
    requires History(cfg, worlds, inputs[..|inputs| - 1], true)
    requires Next(cfg, Last(worlds), inputs[|inputs| - 1], w, true)
    ensures History(cfg, worlds + [w], inputs, true)
  {
    hide Next, WellFormedInput;
    var longer, init := worlds + [w], inputs[..|inputs| - 1];
    forall i | 0 <= i < |inputs| ensures Next(cfg, longer[i], inputs[i], longer[i + 1], true) && WellFormedInput(inputs[i]) {
      if i < |init| {
        assert Next(cfg, worlds[i], init[i], worlds[i + 1], true) && WellFormedInput(init[i]);
      }
    }
  }

  lemma LastIsRun(cfg: Config, worlds: seq<World>, inputs: seq<Input>)
    requires History(cfg, worlds, inputs, true)
    ensures Last(worlds).publisher == Run(cfg, inputs)
  {
    hide Next, Run, WellFormedInput;
    HistoryRuns(cfg, worlds, inputs, true, |inputs|);
    assert inputs[..|inputs|] == inputs;
  }

  /* ---------------- Core stores nothing else ---------------- */

  /** While some rows are trusted, Core stores these or rows whose publish failed since. */
  lemma {:induction false} StoredIsTrustedOrLost(cfg: Config, worlds: seq<World>, inputs: seq<Input>)
    requires History(cfg, worlds, inputs, true) && BookOf(cfg, inputs).trusted.Some?
    ensures Last(worlds).core == BookOf(cfg, inputs).trusted.value || Last(worlds).core in Lost(cfg, inputs)
  {
    hide Step, Kept, Unclear, GoesOn, WellFormedInput;
    if inputs != [] {
      var before, init, input := worlds[..|worlds| - 1], inputs[..|inputs| - 1], inputs[|inputs| - 1];
      HistoryInit(cfg, worlds, inputs);
      LastIsRun(cfg, before, init);
      assert Next(cfg, worlds[|init|], inputs[|init|], worlds[|init| + 1], true);
      if BookOf(cfg, init).trusted.Some? { StoredIsTrustedOrLost(cfg, before, init); }
    }
  }

  /* ---------------- Core may store each of them ---------------- */

  /** Some history ends with Core storing these rows. */
  ghost predicate MayStore(cfg: Config, inputs: seq<Input>, rows: seq<Row>) {
    exists worlds :: History(cfg, worlds, inputs, true) && Last(worlds).core == rows
  }

  /** What Core may store after a step that may leave or put it there. */
  lemma MayStep(cfg: Config, inputs: seq<Input>, before: seq<Row>, after: seq<Row>)
    requires inputs != [] && WellFormedInput(inputs[|inputs| - 1])
    requires MayStore(cfg, inputs[..|inputs| - 1], before)
    requires
      var s, input := Run(cfg, inputs[..|inputs| - 1]), inputs[|inputs| - 1];
      if input.PublishReplies? && Enabled(s, input)
      then LooseEffect(s.running[input.index].build, input.publish, before, after) else after == before
    ensures MayStore(cfg, inputs, after)
  {
    hide Step, WellFormedInput, LooseEffect, Run;
    var init, input := inputs[..|inputs| - 1], inputs[|inputs| - 1];
    var worlds :| History(cfg, worlds, init, true) && Last(worlds).core == before;
    LastIsRun(cfg, worlds, init);
    var w := World(Step(cfg, Last(worlds).publisher, input), after);
    HistoryMore(cfg, worlds, inputs, w);
    assert Last(worlds + [w]) == w;
  }

  lemma {:induction false} SomethingStored(cfg: Config, inputs: seq<Input>)
    requires WellFormedRun(inputs)
    ensures exists rows :: MayStore(cfg, inputs, rows)
  {
    hide Step, WellFormedInput, Kept, Unclear, MayStore, Run;
    if inputs == [] {
      NothingRun(cfg, []);
    } else {
      var init, input := inputs[..|inputs| - 1], inputs[|inputs| - 1];
      SomethingStored(cfg, init);
      var rows :| MayStore(cfg, init, rows);
      var s := Run(cfg, init);
      var after :=
        if input.PublishReplies? && Enabled(s, input) && Kept(s.running[input.index].build, input.publish)
        then s.running[input.index].build.devices else rows;
      MayStep(cfg, inputs, rows, after);
    }
  }

  lemma NothingRun(cfg: Config, rows: seq<Row>)
    ensures MayStore(cfg, [], rows)
  {
    var worlds := [World(Fresh, rows)];
    assert History(cfg, worlds, [], true) && Last(worlds).core == rows;
  }

  /** Whatever failed to be published since the last full publish may be what Core stores. */
  lemma {:induction false} LostMayBeStored(cfg: Config, inputs: seq<Input>, rows: seq<Row>)
    requires WellFormedRun(inputs) && rows in Lost(cfg, inputs)
    ensures MayStore(cfg, inputs, rows)
  {
    hide Run, WellFormedInput, MayStore, Kept, Unclear;
    var init := inputs[..|inputs| - 1];
    if rows in Lost(cfg, init) {
      LostMayBeStored(cfg, init, rows);
      MayStep(cfg, inputs, rows, rows);
    } else {
      SomethingStored(cfg, init);
      var before :| MayStore(cfg, init, before);
      MayStep(cfg, inputs, before, rows);
    }
  }

  /** Rows that are trusted are certainly what Core stores exactly while no failed publish posted others. */
  lemma TrustedCertainExactly(cfg: Config, inputs: seq<Input>, rows: seq<Row>)
    requires WellFormedRun(inputs) && BookOf(cfg, inputs).trusted == Some(rows)
    ensures (forall worlds :: History(cfg, worlds, inputs, true) ==> Last(worlds).core == rows) <==>
              Lost(cfg, inputs) <= {rows}
  {
    hide Next, BookOf, Lost, WellFormedRun;
    if Lost(cfg, inputs) <= {rows} {
      forall worlds | History(cfg, worlds, inputs, true) ensures Last(worlds).core == rows {
        StoredIsTrustedOrLost(cfg, worlds, inputs);
      }
    } else {
      var other :| other in Lost(cfg, inputs) && other != rows;
      LostMayBeStored(cfg, inputs, other);
      var worlds :| History(cfg, worlds, inputs, true) && Last(worlds).core == other;
    }
  }

  /**
   A success with counts on display, although failed publishes may have been stored: the rows some settled
   attempt built, as many as counted, are certainly what Core stores exactly if every publish that failed
   since the last full one posted these very rows.
   */
  lemma SuccessCertainExactly(cfg: Config, inputs: seq<Input>)
    requires Injective(cfg.digest) && WellFormedRun(inputs) && Shows(Run(cfg, inputs).diagnostics)
    ensures
      var trusted := BookOf(cfg, inputs).trusted;
      && trusted.Some? && Run(cfg, inputs).diagnostics.stored == Some(|trusted.value|)
      && (exists j :: PutUp(cfg, inputs, j, trusted.value))
      && ((forall worlds :: History(cfg, worlds, inputs, true) ==> Last(worlds).core == trusted.value) <==>
            Lost(cfg, inputs) <= {trusted.value})
  {
    hide History, BookOf, Lost, WellFormedRun, PutUp, Run, Shows;
    DisplayIsTrusted(cfg, inputs);
    TrustedCertainExactly(cfg, inputs, BookOf(cfg, inputs).trusted.value);
  }
}
