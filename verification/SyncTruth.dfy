/**
 What a success shown with counts says about Core. Beside the publisher stands the
 snapshot Core stores; diagnostics that show a success with counts are true of it,
 as long as a failed publish leaves it alone.
 */
module SyncTruth {
  import opened Basics
  import opened EnrichmentTypes
  import opened Resolver
  import opened CoreRequest
  import opened SyncOutcome
  import opened SyncProtocol
  import opened SyncProperties
  import opened SyncCache

  /** A success with counts is on display. */
  predicate Shows(d: Diagnostics) { d.state == Successful && d.stored.Some? }

  /** The rows of the snapshot that this reply settles. */
  function Built(cfg: Config, s: State, input: Input): Option<seq<Row>>
    requires Enabled(s, input)
  {
    match input
    case InventoryReplies(index, InventoryOk(devices), _) =>
      var k := s.running[index];
      var build := BuildOf(cfg, k.candidates, k.ambiguous, devices);
      if build.None? then None else Some(build.value.devices)
    case PublishReplies(index, _, _) => Some(s.running[index].build.devices)
    case _ => None
  }

  /* ---------------- what code does to the display ---------------- */

  /** The display stays, or shows no success with counts. */
  ghost predicate Hides(s: State, t: State) { t.diagnostics == s.diagnostics || !Shows(t.diagnostics) }

  lemma ShowSets(s: State, next: Diagnostics)
    ensures Show(s, next).diagnostics == next
  {
  }

  lemma FailHides(s: State, state: SyncState, reason: string)
    ensures !Shows(Fail(s, state, reason).diagnostics)
  {
    hide Show, SafeReason;
    ShowSets(s, NextDiagnostics(s.diagnostics, state, None, None, Some(reason)));
  }

  lemma EndsKeepDisplay(cfg: Config, s: State)
    ensures EndQuietly(s).diagnostics == s.diagnostics
    ensures EndRetrying(cfg, s).diagnostics == s.diagnostics
    ensures CancelRetry(s).diagnostics == s.diagnostics
    ensures EndQuietly(CancelRetry(s)).diagnostics == s.diagnostics
  {
  }

  lemma LoseContractHides(cfg: Config, s: State, contract: ContractState)
    ensures !Shows(LoseContract(cfg, s, contract).diagnostics)
  {
    hide Fail, EndQuietly, EndRetrying, CancelRetry;
    var t := ForgetFull(s).(terminalFingerprint := None);
    FailHides(t, ContractSyncState(contract), ContractReason(contract));
    EndsKeepDisplay(cfg, Fail(t, ContractSyncState(contract), ContractReason(contract)));
  }

  lemma LoopTurnHides(cfg: Config, s: State, force: bool, inTask: bool, obs: Observation)
    ensures Hides(s, LoopTurn(cfg, s, force, inTask, obs))
    ensures !s.stopped && obs.contract != Supported ==> !Shows(LoopTurn(cfg, s, force, inTask, obs).diagnostics)
  {
    hide LoseContract, Fail, EndRetrying, Shows;
    var s1 := Log(s.(pending := false, pendingForce := false), AttemptStarted(force));
    LoseContractHides(cfg, s1, obs.contract);
    FailHides(s1, SourceUnavailable, "registry_unavailable");
    EndsKeepDisplay(cfg, Fail(s1, SourceUnavailable, "registry_unavailable"));
  }

  /** After a reply the loop leaves the display, or takes it down; if the contract is gone, it takes it down. */
  lemma ResumeHides(cfg: Config, s: State, t: State, inTask: bool, obs: Observation)
    requires AttemptRaised !in t.log
    ensures Hides(t, Resume(cfg, s, t, inTask, obs))
    ensures |t.running| <= |s.running| && t.pending && !t.stopped && obs.contract != Supported ==>
              !Shows(Resume(cfg, s, t, inTask, obs).diagnostics)
  {
    hide LoopTurn;
    assert t.log != [] ==> t.log[|t.log| - 1] in t.log;
    LoopTurnHides(cfg, t, t.pendingForce, inTask, obs);
  }

  lemma FinishShows(s: State, outcome: Outcome, lastSuccessAt: Option<string>)
    ensures Shows(Finish(s, Some(outcome), lastSuccessAt).diagnostics)
    ensures Finish(s, Some(outcome), lastSuccessAt).diagnostics.stored == Some(outcome.stored)
  {
    hide Show;
    ShowSets(s, NextDiagnostics(s.diagnostics, Successful, Some(outcome), lastSuccessAt, None));
  }

  lemma RepeatHides(s: State, force: bool, build: Build, inTask: bool)
    ensures Hides(s, RepeatOrPublish(s, force, build, inTask))
  {
    hide Show, SafeReason;
    ShowSets(s, NextDiagnostics(s.diagnostics, s.diagnostics.state, None, None, s.diagnostics.failureReason));
  }

  /** What a display newly put up shows: these rows, which are the ones trusted. */
  ghost predicate ShowsRows(t: State, rows: seq<Row>, b: Book) {
    b.trusted == Some(rows) && t.diagnostics.stored == Some(|rows|)
  }

  lemma DecideShows(cfg: Config, s: State, force: bool, build: Build, inTask: bool, b: Book)
    requires Injective(cfg.digest) && Faithful(cfg, s, b) && GoodBuild(cfg, build)
    ensures
      var t := Decide(s, force, build, inTask);
      Hides(s, t) || ShowsRows(t, build.devices, b)
  {
    hide Finish, RepeatOrPublish, Shows, Faithful;
    if !force && s.lastFingerprint == Some(build.fingerprint) && s.lastFullResult.Some? {
      CacheHit(cfg, s, build, b);
      FinishShows(s, CompletedOutcome(build, s.lastFullResult.value).value, None);
    } else {
      RepeatHides(s, force, build, inTask);
    }
  }

  lemma AfterInventoryShows(cfg: Config, s: State, k: Continuation, reply: InventoryReply, b: Book)
    requires Injective(cfg.digest) && Faithful(cfg, s, b) && k.AwaitInventory? && Ready(cfg, k)
    requires reply.InventoryOk? ==> WellFormedInventory(reply.devices)
    ensures
      var t := AfterInventory(cfg, s, k, reply);
      || Hides(s, t)
      || (&& reply.InventoryOk? && BuildOf(cfg, k.candidates, k.ambiguous, reply.devices).Some?
          && ShowsRows(t, BuildOf(cfg, k.candidates, k.ambiguous, reply.devices).value.devices, b))
  {
    hide Fail, EndQuietly, EndRetrying, CancelRetry, BuildOf, Faithful, Shows, Decide, GoodBuild;
    if reply.InventoryOk? {
      BuildsWell(cfg, k.candidates, k.ambiguous, reply.devices);
      InventoryDecides(cfg, s, k, reply.devices);
      DecideShows(cfg, s, k.force, BuildOf(cfg, k.candidates, k.ambiguous, reply.devices).value, k.inTask, b);
    } else {
      forall u: State, state, reason ensures !Shows(Fail(u, state, reason).diagnostics) { FailHides(u, state, reason); }
      forall u: State
        ensures EndQuietly(u).diagnostics == u.diagnostics && EndRetrying(cfg, u).diagnostics == u.diagnostics
        ensures EndQuietly(CancelRetry(u)).diagnostics == u.diagnostics
      {
        EndsKeepDisplay(cfg, u);
      }
    }
  }

  lemma UseResultShows(cfg: Config, s: State, build: Build, result: CoreResult, b: Book)
    requires GoodBuild(cfg, build)
    ensures
      var t := UseResult(cfg, s, build, result);
      !Shows(t.diagnostics) || ShowsRows(t, build.devices, Told(b, build, PublishOk(result)))
  {
    hide Fail, EndQuietly, EndRetrying, CancelRetry, Finish, Show, ForgetFull, Remember, SafeReason;
    OutcomeExactlySelfConsistent(build, result);
    var outcome := CompletedOutcome(build, result);
    if outcome.None? {
      FailHides(ForgetFull(s), InvalidResponse, "inconsistent_result");
      EndsKeepDisplay(cfg, Fail(ForgetFull(s), InvalidResponse, "inconsistent_result").(terminalFingerprint := Some(build.fingerprint)));
    } else if !outcome.value.fullyConverged {
      var u := ForgetFull(s.(terminalFingerprint := None));
      var reason := Some("partial_acceptance");
      ShowSets(u, NextDiagnostics(u.diagnostics, PartialAcceptance, outcome, result.lastPushAt, reason));
      EndsKeepDisplay(cfg, SetDiagnostics(u, PartialAcceptance, outcome, result.lastPushAt, reason));
    } else {
      FinishShows(Remember(s, build, result), outcome.value, result.lastPushAt);
    }
  }

  lemma AfterPublishShows(cfg: Config, s: State, k: Continuation, reply: PublishReply, b: Book)
    requires k.AwaitPublish? && Ready(cfg, k)
    ensures
      var t := AfterPublish(cfg, s, k, reply);
      !Shows(t.diagnostics) || ShowsRows(t, k.build.devices, Told(b, k.build, reply))
  {
    hide Fail, EndQuietly, EndRetrying, CancelRetry, UseResult, Shows, GoodBuild, Told, ForgetFull, ShowsRows;
    if reply.PublishOk? {
      Used(cfg, s, k, reply.result);
      UseResultShows(cfg, s, k.build, reply.result, b);
    } else {
      forall u: State, state, reason ensures !Shows(Fail(u, state, reason).diagnostics) { FailHides(u, state, reason); }
      forall u: State
        ensures EndQuietly(u).diagnostics == u.diagnostics && EndRetrying(cfg, u).diagnostics == u.diagnostics
        ensures EndQuietly(CancelRetry(u)).diagnostics == u.diagnostics
      {
        EndsKeepDisplay(cfg, u);
      }
    }
  }

  lemma InventoryStepShows(cfg: Config, s: State, input: Input, b: Book)
    requires input.InventoryReplies? && Enabled(s, input)
    requires Injective(cfg.digest) && Faithful(cfg, s, b) && WellFormedInput(input)
    ensures
      var t := InventoryStep(cfg, s, input.index, input.inventory, input.obs);
      && (Hides(s, t) || (Built(cfg, s, input).Some? && ShowsRows(t, Built(cfg, s, input).value, Noted(cfg, s, input, b))))
      && (Shows(t.diagnostics) ==> Noted(cfg, s, input, b) == b)
  {
    hide Faithful, AfterInventory, Resume, BuildOf, GoesOn, Shows, GoodBuild;
    var index, reply, obs := input.index, input.inventory, input.obs;
    RemovedReady(cfg, s, index, b);
    var k, u := s.running[index], s.(running := Without(s.running, index));
    if reply.InventoryOk? { BuildsWell(cfg, k.candidates, k.ambiguous, reply.devices); }
    AfterInventoryFaithful(cfg, u, k, reply, b);
    AfterInventoryShows(cfg, u, k, reply, b);
    NoneRaised(cfg, AfterInventory(cfg, u, k, reply), b);
    ResumeHides(cfg, u, AfterInventory(cfg, u, k, reply), k.inTask, obs);
    GoesOnWaits(cfg, u, k, reply);
    SameGoesOn(cfg, s, u, k, reply);
  }

  lemma NoneRaised(cfg: Config, s: State, b: Book)
    requires Faithful(cfg, s, b)
    ensures AttemptRaised !in s.log
  {
  }

  lemma PublishStepShows(cfg: Config, s: State, input: Input, b: Book)
    requires input.PublishReplies? && Enabled(s, input)
    requires Faithful(cfg, s, b) && WellFormedInput(input)
    ensures
      var t := PublishStep(cfg, s, input.index, input.publish, input.obs);
      Shows(t.diagnostics) ==> ShowsRows(t, s.running[input.index].build.devices, Noted(cfg, s, input, b))
  {
    hide Faithful, AfterPublish, Resume, AttemptCode, Told, Shows;
    var index, reply, obs := input.index, input.publish, input.obs;
    RemovedReady(cfg, s, index, b);
    var k, u := s.running[index], s.(running := Without(s.running, index));
    AfterPublishFaithful(cfg, u, k, reply, b);
    AfterPublishShows(cfg, u, k, reply, b);
    NoneRaised(cfg, AfterPublish(cfg, u, k, reply), Told(b, k.build, reply));
    ResumeHides(cfg, u, AfterPublish(cfg, u, k, reply), k.inTask, obs);
    AfterPublishCode(cfg, u, k, reply);
    KeepsPending(cfg, u, AfterPublish(cfg, u, k, reply));
  }

  lemma ReconcileHides(cfg: Config, s: State, force: bool, inTask: bool, obs: Observation)
    ensures Hides(s, Reconcile(cfg, s, force, inTask, obs))
    ensures !s.stopped && !s.lockHeld && obs.contract != Supported ==>
              !Shows(Reconcile(cfg, s, force, inTask, obs).diagnostics)
  {
    hide LoopTurn;
    LoopTurnHides(cfg, s.(lockHeld := true), force, inTask, obs);
  }

  /** A step that ends with a success on display left it there, or settled the snapshot it shows. */
  lemma StepShows(cfg: Config, s: State, input: Input, b: Book)
    requires Injective(cfg.digest) && Faithful(cfg, s, b) && WellFormedInput(input) && Enabled(s, input)
    requires Shows(Step(cfg, s, input).diagnostics)
    ensures
      var t := Step(cfg, s, input);
      || (t.diagnostics == s.diagnostics && !input.PublishReplies? && Noted(cfg, s, input, b) == b)
      || (Built(cfg, s, input).Some? && ShowsRows(t, Built(cfg, s, input).value, Noted(cfg, s, input, b)))
  {
    hide Faithful, Reconcile, InventoryStep, PublishStep, GoesOn, Shows, ShowsRows;
    match input
    case Start(obs) => ReconcileHides(cfg, Started(s), false, false, obs);
    case SpawnedRuns(index, obs) =>
      ReconcileHides(cfg, s.(spawned := Without(s.spawned, index)), s.spawned[index], true, obs);
    case InventoryReplies(_, _, _) => InventoryStepShows(cfg, s, input, b);
    case PublishReplies(_, _, _) => PublishStepShows(cfg, s, input, b);
    case _ =>
  }

  /** At step `j` the attempt that built these rows was settled, and the display has stood since. */
  ghost predicate PutUp(cfg: Config, inputs: seq<Input>, j: nat, rows: seq<Row>) {
    && j < |inputs| && Enabled(Run(cfg, inputs[..j]), inputs[j])
    && Built(cfg, Run(cfg, inputs[..j]), inputs[j]) == Some(rows)
    && forall i :: j < i <= |inputs| ==> Run(cfg, inputs[..i]).diagnostics == Run(cfg, inputs).diagnostics
  }

  /** A success on display is that of the rows the book trusts, which some settled attempt built. */
  lemma {:induction false} DisplayIsTrusted(cfg: Config, inputs: seq<Input>)
    requires Injective(cfg.digest) && WellFormedRun(inputs) && Shows(Run(cfg, inputs).diagnostics)
    ensures
      var trusted := BookOf(cfg, inputs).trusted;
      && trusted.Some? && Run(cfg, inputs).diagnostics.stored == Some(|trusted.value|)
      && exists j :: PutUp(cfg, inputs, j, trusted.value)
  {
    hide Step, Noted, WellFormedInput, Built, Shows, Faithful;
    if inputs == [] {
      NothingShown();
    } else {
      var init, input := inputs[..|inputs| - 1], inputs[|inputs| - 1];
      var s, b := Run(cfg, init), BookOf(cfg, init);
      RunFaithful(cfg, init);
      if Enabled(s, input) { StepShows(cfg, s, input, b); } else { Idle(cfg, s, input); }
      assert inputs[..|inputs|] == inputs;
      if Run(cfg, inputs).diagnostics == s.diagnostics && BookOf(cfg, inputs).trusted == b.trusted {
        DisplayIsTrusted(cfg, init);
        var j :| PutUp(cfg, init, j, b.trusted.value);
        StillUp(cfg, inputs, j, b.trusted.value);
      } else {
        assert PutUp(cfg, inputs, |init|, BookOf(cfg, inputs).trusted.value);
      }
    }
  }

  lemma StillUp(cfg: Config, inputs: seq<Input>, j: nat, rows: seq<Row>)
    requires inputs != [] && PutUp(cfg, inputs[..|inputs| - 1], j, rows)
    requires Run(cfg, inputs).diagnostics == Run(cfg, inputs[..|inputs| - 1]).diagnostics
    ensures PutUp(cfg, inputs, j, rows)
  {
    hide Run, Built, Enabled;
    var init := inputs[..|inputs| - 1];
    assert inputs[..j] == init[..j];
    forall i | j < i <= |inputs| ensures Run(cfg, inputs[..i]).diagnostics == Run(cfg, inputs).diagnostics {
      if i < |inputs| { assert inputs[..i] == init[..i]; } else { assert inputs[..i] == inputs; }
    }
  }

  /* ---------------- Core beside the publisher ---------------- */

  /** The publisher together with the snapshot Core stores. */
  datatype World = World(publisher: State, core: seq<Row>)

  /**
   How one publish may change Core: fully kept means it stores the posted rows, an unclear reply means
   anything, and a failure or refusal means no change.
   */
  ghost predicate CoreEffect(build: Build, reply: PublishReply, core: seq<Row>, core': seq<Row>) {
    if Kept(build, reply) then core' == build.devices
    else Unclear(build, reply) || core' == core
  }

  /** As before, but a publish may have been stored although its reply is a failure. */
  ghost predicate LooseEffect(build: Build, reply: PublishReply, core: seq<Row>, core': seq<Row>) {
    CoreEffect(build, reply, core, core') || (!Kept(build, reply) && core' == build.devices)
  }

  /** One step with nobody else writing to Core; `loose` says whether failures may have been stored. */
  ghost predicate Next(cfg: Config, w: World, input: Input, w': World, loose: bool) {
    && w'.publisher == Step(cfg, w.publisher, input)
    && (if input.PublishReplies? && Enabled(w.publisher, input)
        then
          var build := w.publisher.running[input.index].build;
          if loose then LooseEffect(build, input.publish, w.core, w'.core)
          else CoreEffect(build, input.publish, w.core, w'.core)
        else w'.core == w.core)
  }

  ghost predicate History(cfg: Config, worlds: seq<World>, inputs: seq<Input>, loose: bool) {
    && |worlds| == |inputs| + 1 && worlds[0].publisher == Fresh && WellFormedRun(inputs)
    && forall i :: 0 <= i < |inputs| ==> Next(cfg, worlds[i], inputs[i], worlds[i + 1], loose)
  }

  lemma {:induction false} HistoryRuns(cfg: Config, worlds: seq<World>, inputs: seq<Input>, loose: bool, k: nat)
    requires History(cfg, worlds, inputs, loose) && k <= |inputs|
    ensures worlds[k].publisher == Run(cfg, inputs[..k])
  {
    hide Step, WellFormedInput;
    if k > 0 {
      HistoryRuns(cfg, worlds, inputs, loose, k - 1);
      assert Next(cfg, worlds[k - 1], inputs[k - 1], worlds[k], loose);
      assert inputs[..k][..k - 1] == inputs[..k - 1];
    }
  }

  /** The state fits the book, and what the book trusts is what Core stores. */
  ghost predicate True(cfg: Config, w: World, b: Book) {
    Faithful(cfg, w.publisher, b) && (b.trusted.Some? ==> b.trusted.value == w.core)
  }

  lemma NextTrue(cfg: Config, w: World, input: Input, w': World, b: Book)
    requires Injective(cfg.digest) && True(cfg, w, b) && WellFormedInput(input) && Next(cfg, w, input, w', false)
    ensures True(cfg, w', if Enabled(w.publisher, input) then Noted(cfg, w.publisher, input, b) else b)
  {
    hide Faithful, Step, GoesOn;
    StepFaithful(cfg, w.publisher, input, b);
  }

  lemma {:induction false} HistoryTrue(cfg: Config, worlds: seq<World>, inputs: seq<Input>, k: nat)
    requires Injective(cfg.digest) && History(cfg, worlds, inputs, false) && k <= |inputs|
    ensures True(cfg, worlds[k], BookOf(cfg, inputs[..k]))
  {
    hide Step, Noted, WellFormedInput;
    HistoryRuns(cfg, worlds, inputs, false, k);
    if k == 0 {
      RunFaithful(cfg, inputs[..0]);
    } else {
      HistoryTrue(cfg, worlds, inputs, k - 1);
      HistoryRuns(cfg, worlds, inputs, false, k - 1);
      NextTrue(cfg, worlds[k - 1], inputs[k - 1], worlds[k], BookOf(cfg, inputs[..k - 1]));
      assert inputs[..k][..k - 1] == inputs[..k - 1];
    }
  }

  /** At step `j` the attempt for the rows Core stores at `k` was settled, and nothing about it has changed since. */
  ghost predicate Settled(cfg: Config, worlds: seq<World>, inputs: seq<Input>, j: nat, k: nat)
    requires |worlds| == |inputs| + 1
  {
    && j < k <= |inputs| && Enabled(worlds[j].publisher, inputs[j])
    && Built(cfg, worlds[j].publisher, inputs[j]) == Some(worlds[k].core)
    && forall i :: j < i <= k ==>
         worlds[i].core == worlds[k].core && worlds[i].publisher.diagnostics == worlds[k].publisher.diagnostics
  }

  /**
   Whenever the diagnostics show a success with counts, Core stores exactly the rows of the snapshot that
   the last settled attempt built, published or answered from the cache, and as many as are counted.
   */
  lemma {:induction false} SuccessIsTrue(cfg: Config, worlds: seq<World>, inputs: seq<Input>, k: nat)
    requires Injective(cfg.digest) && History(cfg, worlds, inputs, false) && k <= |inputs|
    requires Shows(worlds[k].publisher.diagnostics)
    ensures worlds[k].publisher.diagnostics.stored == Some(|worlds[k].core|)
    ensures exists j :: Settled(cfg, worlds, inputs, j, k)
  {
    hide Step, Noted, WellFormedInput, Built, Shows, Faithful;
    if k == 0 {
      NothingShown();
    } else {
      var w, w' := worlds[k - 1], worlds[k];
      var s, input, b := w.publisher, inputs[k - 1], BookOf(cfg, inputs[..k - 1]);
      assert Next(cfg, w, input, w', false);
      HistoryTrue(cfg, worlds, inputs, k - 1);
      NextTrue(cfg, w, input, w', b);
      if Enabled(s, input) { StepShows(cfg, s, input, b); } else { Idle(cfg, s, input); }
      if w'.publisher.diagnostics == s.diagnostics && w'.core == w.core {
        SuccessIsTrue(cfg, worlds, inputs, k - 1);
        var j :| Settled(cfg, worlds, inputs, j, k - 1);
        assert Settled(cfg, worlds, inputs, j, k);
      } else {
        assert Settled(cfg, worlds, inputs, k - 1, k);
      }
    }
  }

  lemma NothingShown()
    ensures !Shows(Fresh.diagnostics)
  {
  }
}
