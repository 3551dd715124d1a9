/**
 The rules for replies over whole runs: when a retry is pending after a reply, which rows
 are not sent again, and exactly when an attempt publishes.
 */
module SyncVerdicts {
  import opened Basics
  import opened EnrichmentTypes
  import opened Resolver
  import opened CoreRequest
  import opened SyncOutcome
  import opened SyncProtocol
  import opened SyncProperties
  import opened SyncCache
  import opened SyncReplies

  /* ---------------- rows that are barred ---------------- */

  /** A reply bars the rows it is about, or lifts what is barred, or neither. */
  function Judged(barred: Option<seq<Row>>, build: Build, reply: PublishReply): Option<seq<Row>> {
    if Final(build, reply) then Some(build.devices) else if Taken(build, reply) then None else barred
  }

  /** A new attempt that finds the contract lost lifts what is barred. */
  function Begun(barred: Option<seq<Row>>, obs: Observation): Option<seq<Row>> {
    if obs.contract == Supported then barred else None
  }

  /** With this inventory the attempt goes on to publish: it is forced, or its rows are neither trusted nor barred. */
  predicate Sends(k: Continuation, reply: InventoryReply, trusted: Option<seq<Row>>, barred: Option<seq<Row>>)
    requires k.AwaitInventory?
  {
    && reply.InventoryOk?
    && var rows := Resolved(k.candidates, k.ambiguous, reply.devices).rows;
       k.force || (trusted != Some(rows) && barred != Some(rows))
  }

  function Ruled(s: State, input: Input, trusted: Option<seq<Row>>, barred: Option<seq<Row>>): Option<seq<Row>>
    requires Enabled(s, input)
  {
    match input
    case Start(obs) => if s.started || s.lockHeld then barred else Begun(barred, obs)
    case SpawnedRuns(_, obs) => if s.stopped || s.lockHeld then barred else Begun(barred, obs)
    case InventoryReplies(index, reply, obs) =>
      if s.stopped || !s.pending || Sends(s.running[index], reply, trusted, barred) then barred else Begun(barred, obs)
    case PublishReplies(index, reply, obs) =>
      var judged := Judged(barred, s.running[index].build, reply);
      if s.stopped || !s.pending then judged else Begun(judged, obs)
    case _ => barred
  }

  /** The rows barred after a run. */
  function BarredOf(cfg: Config, inputs: seq<Input>): Option<seq<Row>> {
    if inputs == [] then None
    else
      var init, input := inputs[..|inputs| - 1], inputs[|inputs| - 1];
      var s, barred := Run(cfg, init), BarredOf(cfg, init);
      if Enabled(s, input) then Ruled(s, input, BookOf(cfg, init).trusted, barred) else barred
  }

  /** The terminal fingerprint is that of the barred rows. */
  ghost predicate Marks(cfg: Config, s: State, barred: Option<seq<Row>>) {
    s.terminalFingerprint == if barred.Some? then Some(cfg.digest(barred.value)) else None
  }

  /* ---------------- one turn of the loop ---------------- */

  /** Whether a retry is pending after another attempt has begun, with delays to wait for. */
  predicate Turned(obs: Observation, retry: bool) {
    if obs.contract != Supported then obs.contract == ContractGone
    else obs.registry.Unavailable? || retry
  }

  lemma TurnLeaves(cfg: Config, s: State, force: bool, inTask: bool, obs: Observation)
    requires !s.stopped
    ensures
      var t := LoopTurn(cfg, s, force, inTask, obs);
      && t.terminalFingerprint == (if obs.contract == Supported then s.terminalFingerprint else None)
      && (cfg.retryDelays != [] ==> (t.retry.Some? <==> Turned(obs, s.retry.Some?)))
      && (obs.contract == Supported && obs.registry.Complete? ==> t.diagnostics == s.diagnostics)
      && t.diagnostics.lastSuccessAt == s.diagnostics.lastSuccessAt
      && (forall k :: k in t.running ==> k in s.running || k.AwaitInventory?)
  {
    hide BeginOnce, Displays;
    var u := Log(s.(pending := false, pendingForce := false), AttemptStarted(force));
    BeginLeaves(cfg, u, force, inTask, obs);
    BeginRuns(cfg, u, force, inTask, obs);
  }

  lemma BeginRuns(cfg: Config, s: State, force: bool, inTask: bool, obs: Observation)
    ensures forall k :: k in BeginOnce(cfg, s, force, inTask, obs).running ==> k in s.running || k.AwaitInventory?
  {
    hide LoseContract, Fail, EndRetrying, AttemptCode;
    LoseContractCode(cfg, s, obs.contract);
    FailRetrying(cfg, s, SourceUnavailable, "registry_unavailable");
  }

  lemma TurnWaits(cfg: Config, s: State, force: bool, inTask: bool, obs: Observation)
    requires !s.stopped && obs.contract == Supported && obs.registry.Complete?
    ensures
      var t := LoopTurn(cfg, s, force, inTask, obs);
      && t.spawned == s.spawned
      && t.running == s.running + [AwaitInventory(force, obs.registry.candidates, obs.registry.ambiguous, inTask)]
  {
  }

  /** An attempt that has ended, and what the loop does next. */
  lemma TailLeaves(cfg: Config, s: State, inTask: bool, obs: Observation)
    ensures
      var t := LoopTail(cfg, s, inTask, obs);
      && t.terminalFingerprint ==
           (if s.stopped || !s.pending || obs.contract == Supported then s.terminalFingerprint else None)
      && (!s.stopped && cfg.retryDelays != [] ==>
            (t.retry.Some? <==> if s.pending then Turned(obs, s.retry.Some?) else s.retry.Some?))
      && (s.pending ==> obs.contract == Supported && obs.registry.Complete? ==> t.diagnostics == s.diagnostics)
      && (!s.pending ==> t.diagnostics == s.diagnostics)
      && t.diagnostics.lastSuccessAt == s.diagnostics.lastSuccessAt
      && (forall k :: k in t.running ==> k in s.running || k.AwaitInventory?)
      && (!s.stopped && s.pending && obs.contract == Supported && obs.registry.Complete? ==>
            t.running == s.running +
              [AwaitInventory(s.pendingForce, obs.registry.candidates, obs.registry.ambiguous, inTask)])
  {
    hide LoopTurn;
    if s.pending {
      if s.stopped { StoppedTurn(cfg, s, s.pendingForce, inTask, obs); }
      else { TurnLeaves(cfg, s, s.pendingForce, inTask, obs); }
      if !s.stopped && obs.contract == Supported && obs.registry.Complete? {
        TurnWaits(cfg, s, s.pendingForce, inTask, obs);
      }
    }
  }

  lemma StoppedTurn(cfg: Config, s: State, force: bool, inTask: bool, obs: Observation)
    requires s.stopped
    ensures LoopTurn(cfg, s, force, inTask, obs) == Release(s)
  {
  }

  lemma ReconcileMarks(cfg: Config, s: State, force: bool, inTask: bool, obs: Observation, barred: Option<seq<Row>>)
    requires Marks(cfg, s, barred)
    ensures Marks(cfg, Reconcile(cfg, s, force, inTask, obs), if s.stopped || s.lockHeld then barred else Begun(barred, obs))
  {
    hide LoopTurn;
    if !s.stopped && !s.lockHeld { TurnLeaves(cfg, s.(lockHeld := true), force, inTask, obs); }
  }

  /* ---------------- one reply ---------------- */

  /** Whether an attempt goes on depends on the rows alone, not on their fingerprints. */
  lemma GoesOnExactly(cfg: Config, s: State, k: Continuation, reply: InventoryReply, b: Book, barred: Option<seq<Row>>)
    requires Injective(cfg.digest) && Faithful(cfg, s, b) && Marks(cfg, s, barred)
    requires k.AwaitInventory? && Ready(cfg, k) && (reply.InventoryOk? ==> WellFormedInventory(reply.devices))
    ensures GoesOn(cfg, s, k, reply) == Sends(k, reply, b.trusted, barred)
  {
    hide BuildOf, CompletedOutcome, Resolved, WellFormedInventory, WellFormedRegistry;
    if reply.InventoryOk? {
      BuildsWell(cfg, k.candidates, k.ambiguous, reply.devices);
      var build := BuildOf(cfg, k.candidates, k.ambiguous, reply.devices).value;
      if s.lastFingerprint == Some(build.fingerprint) { CacheHit(cfg, s, build, b); }
    }
  }

  /** An attempt that gets its inventory: it publishes these rows, or the loop goes on. */
  lemma InventoryTells(
    cfg: Config, s: State, k: Continuation, reply: InventoryReply, obs: Observation, b: Book, barred: Option<seq<Row>>)
    requires Injective(cfg.digest) && Faithful(cfg, s, b) && Marks(cfg, s, barred)
    requires k.AwaitInventory? && Ready(cfg, k) && (reply.InventoryOk? ==> WellFormedInventory(reply.devices))
    ensures
      var v := AfterInventory(cfg, s, k, reply);
      && Marks(cfg, v, barred) && v.pending == s.pending && v.stopped == s.stopped
      && Resume(cfg, s, v, k.inTask, obs) ==
           (if Sends(k, reply, b.trusted, barred) then v else LoopTail(cfg, v, k.inTask, obs))
  {
    hide AfterInventory, BuildOf, GoesOn, Sends, Faithful, LoopTail, Resume;
    if reply.InventoryOk? {
      BuildsWell(cfg, k.candidates, k.ambiguous, reply.devices);
      InventoryOkLeaves(cfg, s, k, reply.devices);
    } else {
      InventoryLeaves(cfg, s, k, reply);
    }
    GoesOnExactly(cfg, s, k, reply, b, barred);
    GoesOnWaits(cfg, s, k, reply);
    InventoryResumes(cfg, s, k, reply, obs);
  }

  lemma InventoryStepMarks(
    cfg: Config, s: State, index: nat, reply: InventoryReply, obs: Observation, b: Book, barred: Option<seq<Row>>)
    requires Injective(cfg.digest) && Faithful(cfg, s, b) && Marks(cfg, s, barred)
    requires WellFormedInput(InventoryReplies(index, reply, obs))
    requires index < |s.running| && s.running[index].AwaitInventory?
    ensures Marks(cfg, InventoryStep(cfg, s, index, reply, obs),
                  Ruled(s, InventoryReplies(index, reply, obs), b.trusted, barred))
  {
    hide Faithful, AfterInventory, Resume, Sends, LoopTail, WellFormedInventory;
    RemovedReady(cfg, s, index, b);
    var k, u := s.running[index], s.(running := Without(s.running, index));
    InventoryTells(cfg, u, k, reply, obs, b, barred);
    TailLeaves(cfg, AfterInventory(cfg, u, k, reply), k.inTask, obs);
  }

  lemma PublishStepMarks(
    cfg: Config, s: State, index: nat, reply: PublishReply, obs: Observation, b: Book, barred: Option<seq<Row>>)
    requires Faithful(cfg, s, b) && Marks(cfg, s, barred)
    requires index < |s.running| && s.running[index].AwaitPublish?
    ensures Marks(cfg, PublishStep(cfg, s, index, reply, obs),
                  Ruled(s, PublishReplies(index, reply, obs), b.trusted, barred))
  {
    hide Faithful, AfterPublish, Resume, LoopTail, Final, Taken, TryAgain, Displays;
    RemovedReady(cfg, s, index, b);
    var k, u := s.running[index], s.(running := Without(s.running, index));
    PublishLeaves(cfg, u, k, reply);
    PublishResumes(cfg, u, k, reply, obs);
    TailLeaves(cfg, AfterPublish(cfg, u, k, reply), k.inTask, obs);
  }

  /* ---------------- every step ---------------- */

  lemma StepMarks(cfg: Config, s: State, input: Input, b: Book, barred: Option<seq<Row>>)
    requires Injective(cfg.digest) && Faithful(cfg, s, b) && Marks(cfg, s, barred)
    requires WellFormedInput(input) && Enabled(s, input)
    ensures Marks(cfg, Step(cfg, s, input), Ruled(s, input, b.trusted, barred))
  {
    hide Faithful, Reconcile, InventoryStep, PublishStep, Sends, Judged;
    match input
    case Start(obs) => if !s.started { ReconcileMarks(cfg, Started(s), false, false, obs, barred); }
    case SpawnedRuns(index, obs) =>
      ReconcileMarks(cfg, s.(spawned := Without(s.spawned, index)), s.spawned[index], true, obs, barred);
    case InventoryReplies(index, reply, obs) => InventoryStepMarks(cfg, s, index, reply, obs, b, barred);
    case PublishReplies(index, reply, obs) => PublishStepMarks(cfg, s, index, reply, obs, b, barred);
    case RequestSync => CancelLeaves(s);
    case _ =>
  }

  /** Over every run the terminal fingerprint is that of the barred rows, and there is none without any. */
  lemma {:induction false} TerminalIsBarred(cfg: Config, inputs: seq<Input>)
    requires Injective(cfg.digest) && WellFormedRun(inputs)
    ensures Marks(cfg, Run(cfg, inputs), BarredOf(cfg, inputs))
  {
    hide Step, Ruled, WellFormedInput, Faithful;
    if inputs == [] {
    } else {
      var init, input := inputs[..|inputs| - 1], inputs[|inputs| - 1];
      TerminalIsBarred(cfg, init);
      RunFaithful(cfg, init);
      if Enabled(Run(cfg, init), input) {
        StepMarks(cfg, Run(cfg, init), input, BookOf(cfg, init), BarredOf(cfg, init));
      } else {
        Idle(cfg, Run(cfg, init), input);
      }
    }
  }

  /* ---------------- the rules over runs ---------------- */

  lemma OneMore(cfg: Config, inputs: seq<Input>, input: Input)
    ensures Run(cfg, inputs + [input]) == Step(cfg, Run(cfg, inputs), input)
    ensures BarredOf(cfg, inputs + [input]) ==
              if Enabled(Run(cfg, inputs), input)
              then Ruled(Run(cfg, inputs), input, BookOf(cfg, inputs).trusted, BarredOf(cfg, inputs))
              else BarredOf(cfg, inputs)
  {
    hide Step, Ruled;
    assert (inputs + [input])[..|inputs|] == inputs;
  }

  /** The scheduler holds a retry exactly when the manager has its handle. */
  lemma RetryHeld(cfg: Config, inputs: seq<Input>)
    ensures Run(cfg, inputs).live.retry != {} <==> Run(cfg, inputs).retry.Some?
  {
    hide Run;
    RunSafe(cfg, inputs);
    NoHandle(Run(cfg, inputs).retry);
  }

  /**
   After a reply to a publish, a retry is pending exactly if the reply calls for one, or a new attempt that
   began at once found the contract unavailable or a registry incomplete. What is shown tells the reply, and
   an attempt that was waiting for the loop has the force that was asked for.
   */
  lemma PublishSettles(cfg: Config, inputs: seq<Input>, index: nat, reply: PublishReply, obs: Observation)
    requires Injective(cfg.digest) && WellFormedRun(inputs) && WellFormedObservation(obs) && cfg.retryDelays != []
    requires
      var s := Run(cfg, inputs);
      !s.stopped && Enabled(s, PublishReplies(index, reply, obs))
    ensures
      var s, t := Run(cfg, inputs), Run(cfg, inputs + [PublishReplies(index, reply, obs)]);
      var build := s.running[index].build;
      && (t.live.retry != {} <==> if s.pending then Turned(obs, TryAgain(build, reply)) else TryAgain(build, reply))
      && (!s.pending || (obs.contract == Supported && obs.registry.Complete?) ==>
            Displays(t.diagnostics, PublishShown(build, reply)))
      && (s.pending && obs.contract == Supported && obs.registry.Complete? ==>
            t.running == [AwaitInventory(s.pendingForce, obs.registry.candidates, obs.registry.ambiguous,
                                         s.running[index].inTask)])
  {
    hide Run, Faithful, AfterPublish, Resume, LoopTail, Final, Taken, TryAgain, Displays, PublishShown, AttemptCode, BarredOf;
    var input := PublishReplies(index, reply, obs);
    OneMore(cfg, inputs, input);
    RetryHeld(cfg, inputs + [input]);
    RunFaithful(cfg, inputs);
    var s := Run(cfg, inputs);
    RemovedReady(cfg, s, index, BookOf(cfg, inputs));
    var k, u := s.running[index], s.(running := Without(s.running, index));
    AloneRunning(cfg, inputs, index);
    PublishLeaves(cfg, u, k, reply);
    PublishKeepsWaiting(cfg, u, k, reply);
    PublishResumes(cfg, u, k, reply, obs);
    TailLeaves(cfg, AfterPublish(cfg, u, k, reply), k.inTask, obs);
  }

  lemma PublishKeepsWaiting(cfg: Config, s: State, k: Continuation, reply: PublishReply)
    requires k.AwaitPublish?
    ensures
      var t := AfterPublish(cfg, s, k, reply);
      t.running == s.running && t.pending == s.pending && t.pendingForce == s.pendingForce && t.stopped == s.stopped
  {
    hide AfterPublish, Backoff, OwnedTimers;
    AfterPublishCode(cfg, s, k, reply);
    assert FrameOf(cfg, AfterPublish(cfg, s, k, reply)).pendingForce == FrameOf(cfg, s).pendingForce;
    KeepsPending(cfg, s, AfterPublish(cfg, s, k, reply));
  }

  /** The same after an inventory reply that ends the attempt; one that answers from the cache leaves the retry alone. */
  lemma InventorySettles(cfg: Config, inputs: seq<Input>, index: nat, reply: InventoryReply, obs: Observation)
    requires Injective(cfg.digest) && WellFormedRun(inputs + [InventoryReplies(index, reply, obs)]) && cfg.retryDelays != []
    requires
      var s := Run(cfg, inputs);
      !s.stopped && Enabled(s, InventoryReplies(index, reply, obs))
    ensures
      var s, t := Run(cfg, inputs), Run(cfg, inputs + [InventoryReplies(index, reply, obs)]);
      var asked := if reply.InventoryOk? then s.live.retry != {} else AskAgain(reply);
      var sends := Sends(s.running[index], reply, BookOf(cfg, inputs).trusted, BarredOf(cfg, inputs));
      && (t.live.retry != {} <==> if s.pending && !sends then Turned(obs, asked) else asked)
      && (!reply.InventoryOk? && (!s.pending || (obs.contract == Supported && obs.registry.Complete?)) ==>
            Displays(t.diagnostics, InventoryShown(reply)))
  {
    hide Run, Faithful, AfterInventory, Resume, LoopTail, AskAgain, Displays, InventoryShown, Sends, BarredOf, BookOf, BuildOf;
    var input := InventoryReplies(index, reply, obs);
    OneMore(cfg, inputs, input);
    RetryHeld(cfg, inputs);
    RetryHeld(cfg, inputs + [input]);
    Prefix(inputs, input);
    RunFaithful(cfg, inputs);
    TerminalIsBarred(cfg, inputs);
    var s, b := Run(cfg, inputs), BookOf(cfg, inputs);
    RemovedReady(cfg, s, index, b);
    var k, u := s.running[index], s.(running := Without(s.running, index));
    InventoryTells(cfg, u, k, reply, obs, b, BarredOf(cfg, inputs));
    if reply.InventoryOk? {
      BuildsWell(cfg, k.candidates, k.ambiguous, reply.devices);
      InventoryOkLeaves(cfg, u, k, reply.devices);
    } else {
      InventoryLeaves(cfg, u, k, reply);
    }
    TailLeaves(cfg, AfterInventory(cfg, u, k, reply), k.inTask, obs);
  }

  lemma Prefix(inputs: seq<Input>, input: Input)
    requires WellFormedRun(inputs + [input])
    ensures WellFormedRun(inputs) && WellFormedInput(input)
  {
    hide WellFormedInput;
    assert (inputs + [input])[|inputs|] == input;
    forall i | 0 <= i < |inputs| ensures WellFormedInput(inputs[i]) { assert (inputs + [input])[i] == inputs[i]; }
  }

  /** What an attempt waits with once it has its inventory: the rows it resolved, to be published. */
  ghost predicate Publishing(s: State, rows: seq<Row>) {
    |s.running| == 1 && s.running[0].AwaitPublish? && s.running[0].build.devices == rows
  }

  /**
   An attempt that gets its inventory publishes the rows it resolved exactly if it is forced or these rows are
   neither those Core is known to store nor barred by a reply; otherwise nothing waits for a publish.
   */
  lemma PublishesExactly(cfg: Config, inputs: seq<Input>, index: nat, inv: seq<CoreDevice>, obs: Observation)
    requires Injective(cfg.digest) && WellFormedRun(inputs + [InventoryReplies(index, InventoryOk(inv), obs)])
    requires Enabled(Run(cfg, inputs), InventoryReplies(index, InventoryOk(inv), obs))
    ensures
      var k := Run(cfg, inputs).running[index];
      var t := Run(cfg, inputs + [InventoryReplies(index, InventoryOk(inv), obs)]);
      var rows := Resolved(k.candidates, k.ambiguous, inv).rows;
      if k.force || (BookOf(cfg, inputs).trusted != Some(rows) && BarredOf(cfg, inputs) != Some(rows))
      then Publishing(t, rows)
      else forall j :: j in t.running ==> j.AwaitInventory?
  {
    hide Run, Faithful, AfterInventory, Resume, LoopTail, BarredOf, BookOf, BuildOf, Resolved, WellFormedInventory,
      WellFormedRegistry;
    var input := InventoryReplies(index, InventoryOk(inv), obs);
    OneMore(cfg, inputs, input);
    Prefix(inputs, input);
    RunFaithful(cfg, inputs);
    TerminalIsBarred(cfg, inputs);
    var s, b, barred := Run(cfg, inputs), BookOf(cfg, inputs), BarredOf(cfg, inputs);
    RemovedReady(cfg, s, index, b);
    AloneRunning(cfg, inputs, index);
    var k, u := s.running[index], s.(running := Without(s.running, index));
    InventoryTells(cfg, u, k, InventoryOk(inv), obs, b, barred);
    BuildsWell(cfg, k.candidates, k.ambiguous, inv);
    GoesOnExactly(cfg, u, k, InventoryOk(inv), b, barred);
    DecidesRuns(cfg, u, k, inv);
    TailLeaves(cfg, AfterInventory(cfg, u, k, InventoryOk(inv)), k.inTask, obs);
  }

  lemma AloneRunning(cfg: Config, inputs: seq<Input>, index: nat)
    requires index < |Run(cfg, inputs).running|
    ensures Without(Run(cfg, inputs).running, index) == []
  {
    hide Run;
    RunSafe(cfg, inputs);
  }

  lemma RepeatRuns(s: State, force: bool, build: Build, inTask: bool)
    ensures
      RepeatOrPublish(s, force, build, inTask).running ==
        if force || s.terminalFingerprint != Some(build.fingerprint) then s.running + [AwaitPublish(build, inTask)]
        else s.running
  {
    hide SetDiagnostics, EndQuietly;
    var t := SetDiagnostics(s, s.diagnostics.state, None, None, s.diagnostics.failureReason);
    SetDiagnosticsAside(s, s.diagnostics.state, None, None, s.diagnostics.failureReason);
    EndQuietlyAside(t);
  }

  lemma DecidesRuns(cfg: Config, s: State, k: Continuation, inv: seq<CoreDevice>)
    requires k.AwaitInventory? && BuildOf(cfg, k.candidates, k.ambiguous, inv).Some?
    ensures
      var build := BuildOf(cfg, k.candidates, k.ambiguous, inv).value;
      AfterInventory(cfg, s, k, InventoryOk(inv)).running ==
        if GoesOn(cfg, s, k, InventoryOk(inv)) then s.running + [AwaitPublish(build, k.inTask)] else s.running
  {
    hide BuildOf, CompletedOutcome, AfterInventory, Finish, RepeatOrPublish, Ended;
    InventoryDecides(cfg, s, k, inv);
    var build := BuildOf(cfg, k.candidates, k.ambiguous, inv).value;
    RepeatRuns(s, k.force, build, k.inTask);
    RepeatRuns(ForgetFull(s), k.force, build, k.inTask);
    if s.lastFullResult.Some? { FinishKeeps(cfg, s, CompletedOutcome(build, s.lastFullResult.value), None); }
  }

  lemma FinishKeeps(cfg: Config, s: State, outcome: Option<Outcome>, lastSuccessAt: Option<string>)
    ensures Finish(s, outcome, lastSuccessAt).running == s.running
  {
    FinishCode(cfg, s, outcome, lastSuccessAt);
  }

  /* ---------------- the last success shown ---------------- */

  /** When Core last took a snapshot, in whole or in part, as its replies say. */
  function LastPushOf(cfg: Config, inputs: seq<Input>): Option<string> {
    if inputs == [] then None
    else
      var init, input := inputs[..|inputs| - 1], inputs[|inputs| - 1];
      var s, before := Run(cfg, init), LastPushOf(cfg, init);
      if Enabled(s, input) && input.PublishReplies? then PushedAt(before, s.running[input.index].build, input.publish)
      else before
  }

  lemma ReconcileKeepsTime(cfg: Config, s: State, force: bool, inTask: bool, obs: Observation)
    ensures Reconcile(cfg, s, force, inTask, obs).diagnostics.lastSuccessAt == s.diagnostics.lastSuccessAt
  {
    hide LoopTurn;
    if !s.stopped && !s.lockHeld { TurnLeaves(cfg, s.(lockHeld := true), force, inTask, obs); }
  }

  lemma InventoryKeepsTime(cfg: Config, s: State, index: nat, reply: InventoryReply, obs: Observation, b: Book)
    requires Faithful(cfg, s, b) && WellFormedInput(InventoryReplies(index, reply, obs))
    requires index < |s.running| && s.running[index].AwaitInventory?
    ensures InventoryStep(cfg, s, index, reply, obs).diagnostics.lastSuccessAt == s.diagnostics.lastSuccessAt
  {
    hide Faithful, AfterInventory, Resume, LoopTail, BuildOf, WellFormedInventory, AskAgain, Displays, InventoryShown;
    RemovedReady(cfg, s, index, b);
    var k, u := s.running[index], s.(running := Without(s.running, index));
    if reply.InventoryOk? {
      BuildsWell(cfg, k.candidates, k.ambiguous, reply.devices);
      InventoryOkLeaves(cfg, u, k, reply.devices);
    } else {
      InventoryLeaves(cfg, u, k, reply);
    }
    InventoryResumes(cfg, u, k, reply, obs);
    TailLeaves(cfg, AfterInventory(cfg, u, k, reply), k.inTask, obs);
  }

  lemma PublishSetsTime(cfg: Config, s: State, index: nat, reply: PublishReply, obs: Observation, b: Book)
    requires Faithful(cfg, s, b) && index < |s.running| && s.running[index].AwaitPublish?
    ensures PublishStep(cfg, s, index, reply, obs).diagnostics.lastSuccessAt ==
            PushedAt(s.diagnostics.lastSuccessAt, s.running[index].build, reply)
  {
    hide Faithful, AfterPublish, Resume, LoopTail, Final, TryAgain, Displays, PublishShown, PushedAt;
    RemovedReady(cfg, s, index, b);
    var k, u := s.running[index], s.(running := Without(s.running, index));
    PublishLeaves(cfg, u, k, reply);
    PublishResumes(cfg, u, k, reply, obs);
    TailLeaves(cfg, AfterPublish(cfg, u, k, reply), k.inTask, obs);
  }

  lemma StepTime(cfg: Config, s: State, input: Input, b: Book)
    requires Faithful(cfg, s, b) && WellFormedInput(input) && Enabled(s, input)
    ensures Step(cfg, s, input).diagnostics.lastSuccessAt ==
            if input.PublishReplies? then PushedAt(s.diagnostics.lastSuccessAt, s.running[input.index].build, input.publish)
            else s.diagnostics.lastSuccessAt
  {
    hide Faithful, Reconcile, InventoryStep, PublishStep, PushedAt;
    match input
    case Start(obs) => if !s.started { ReconcileKeepsTime(cfg, Started(s), false, false, obs); }
    case SpawnedRuns(index, obs) =>
      ReconcileKeepsTime(cfg, s.(spawned := Without(s.spawned, index)), s.spawned[index], true, obs);
    case InventoryReplies(index, reply, obs) => InventoryKeepsTime(cfg, s, index, reply, obs, b);
    case PublishReplies(index, reply, obs) => PublishSetsTime(cfg, s, index, reply, obs, b);
    case RequestSync => CancelLeaves(s);
    case _ =>
  }

  /** Over every run the time of the last success on display is that of the last reply that Core took a snapshot. */
  lemma {:induction false} LastSuccessIsLastPush(cfg: Config, inputs: seq<Input>)
    requires Injective(cfg.digest) && WellFormedRun(inputs)
    ensures Run(cfg, inputs).diagnostics.lastSuccessAt == LastPushOf(cfg, inputs)
  {
    hide Step, WellFormedInput, Faithful, PushedAt;
    if inputs == [] {
    } else {
      var init, input := inputs[..|inputs| - 1], inputs[|inputs| - 1];
      LastSuccessIsLastPush(cfg, init);
      RunFaithful(cfg, init);
      if Enabled(Run(cfg, init), input) { StepTime(cfg, Run(cfg, init), input, BookOf(cfg, init)); }
      else { Idle(cfg, Run(cfg, init), input); }
    }
  }

  /* ---------------- the periodic timer ---------------- */

  ghost predicate SameLife(s: State, t: State) {
    t.started == s.started && t.stopped == s.stopped && t.periodic == s.periodic
  }

  lemma CodeLives(cfg: Config, s: State, t: State)
    requires AttemptCode(cfg, s, t)
    ensures SameLife(s, t)
  {
    hide Backoff, OwnedTimers;
    assert FrameOf(cfg, t).started == FrameOf(cfg, s).started && FrameOf(cfg, t).stopped == FrameOf(cfg, s).stopped;
    assert FrameOf(cfg, t).periodic == FrameOf(cfg, s).periodic;
  }

  lemma TurnLives(cfg: Config, s: State, force: bool, inTask: bool, obs: Observation)
    ensures SameLife(s, LoopTurn(cfg, s, force, inTask, obs))
  {
    hide BeginOnce, AttemptCode;
    if !s.stopped {
      var u := Log(s.(pending := false, pendingForce := false), AttemptStarted(force));
      BeginOnceCode(cfg, u, force, inTask, obs);
      CodeLives(cfg, u, BeginOnce(cfg, u, force, inTask, obs));
    }
  }

  lemma ReconcileLives(cfg: Config, s: State, force: bool, inTask: bool, obs: Observation)
    ensures SameLife(s, Reconcile(cfg, s, force, inTask, obs))
  {
    hide LoopTurn;
    TurnLives(cfg, s.(lockHeld := true), force, inTask, obs);
  }

  lemma ResumeLives(cfg: Config, s: State, t: State, inTask: bool, obs: Observation)
    ensures SameLife(t, Resume(cfg, s, t, inTask, obs))
  {
    hide LoopTurn;
    TurnLives(cfg, t, t.pendingForce, inTask, obs);
  }

  lemma StepLives(cfg: Config, s: State, input: Input)
    ensures
      var t := Step(cfg, s, input);
      match input
      case Start(_) => if s.started then SameLife(s, t) else t.started && !t.stopped && t.periodic.Some?
      case Stop => if s.stopped then SameLife(s, t) else t.started == s.started && t.stopped && t.periodic.None?
      case _ => SameLife(s, t)
  {
    hide Reconcile, Resume, AfterInventory, AfterPublish, AttemptCode, Backoff, SameLife;
    if Enabled(s, input) {
      match input
      case Start(obs) => ReconcileLives(cfg, Started(s), false, false, obs); SameOrStarted(cfg, s, obs);
      case SpawnedRuns(index, obs) => SpawnedLives(cfg, s, index, obs);
      case InventoryReplies(index, reply, obs) => InventoryLives(cfg, s, index, reply, obs);
      case PublishReplies(index, reply, obs) => PublishLives(cfg, s, index, reply, obs);
      case _ => OtherLives(cfg, s, input);
    } else {
      Idle(cfg, s, input);
      StillLives(s);
    }
  }

  lemma StillLives(s: State)
    ensures SameLife(s, s)
  {
  }

  lemma SameOrStarted(cfg: Config, s: State, obs: Observation)
    requires SameLife(Started(s), Reconcile(cfg, Started(s), false, false, obs))
    ensures
      var t := StartStep(cfg, s, obs);
      if s.started then SameLife(s, t) else t.started && !t.stopped && t.periodic.Some?
  {
    hide Reconcile;
  }

  lemma SpawnedLives(cfg: Config, s: State, index: nat, obs: Observation)
    requires index < |s.spawned|
    ensures SameLife(s, SpawnedStep(cfg, s, index, obs))
  {
    hide Reconcile;
    ReconcileLives(cfg, s.(spawned := Without(s.spawned, index)), s.spawned[index], true, obs);
  }

  lemma InventoryLives(cfg: Config, s: State, index: nat, reply: InventoryReply, obs: Observation)
    requires index < |s.running| && s.running[index].AwaitInventory?
    ensures SameLife(s, InventoryStep(cfg, s, index, reply, obs))
  {
    hide AfterInventory, Resume, AttemptCode, BuildOf;
    var k, u := s.running[index], s.(running := Without(s.running, index));
    AfterInventoryCode(cfg, u, k, reply);
    var v := AfterInventory(cfg, u, k, reply);
    if v != Log(u, AttemptRaised) { CodeLives(cfg, u, v); }
    ResumeLives(cfg, u, v, k.inTask, obs);
  }

  lemma PublishLives(cfg: Config, s: State, index: nat, reply: PublishReply, obs: Observation)
    requires index < |s.running| && s.running[index].AwaitPublish?
    ensures SameLife(s, PublishStep(cfg, s, index, reply, obs))
  {
    hide AfterPublish, Resume, AttemptCode;
    var k, u := s.running[index], s.(running := Without(s.running, index));
    AfterPublishCode(cfg, u, k, reply);
    CodeLives(cfg, u, AfterPublish(cfg, u, k, reply));
    ResumeLives(cfg, u, AfterPublish(cfg, u, k, reply), k.inTask, obs);
  }

  lemma SmallLives(s: State, force: bool)
    ensures SameLife(s, CancelRetry(s)) && SameLife(s, CancelDebounce(s)) && SameLife(s, Spawn(s, force))
    ensures SameLife(s, CancelTasks(s))
  {
  }

  lemma OtherLives(cfg: Config, s: State, input: Input)
    requires input.Stop? || input.RequestSync? || input.DebounceFires? || input.RetryFires? || input.PeriodicFires?
    ensures
      var t := Step(cfg, s, input);
      if input.Stop? && !s.stopped then t.started == s.started && t.stopped && t.periodic.None? else SameLife(s, t)
  {
    hide Reconcile, InventoryStep, PublishStep, CancelRetry, CancelDebounce, CancelTasks, Spawn;
    match input
    case Stop => SmallLives(DropOwners(s), false);
    case RequestSync =>
      SmallLives(s, false);
      SmallLives(CancelRetry(s), false);
    case DebounceFires(id) =>
      SmallLives(s.(live := s.live.(debounce := s.live.debounce - {id}), debounce := None), false);
    case RetryFires(id) => SmallLives(s.(live := s.live.(retry := s.live.retry - {id}), retry := None), true);
    case _ => SmallLives(s, true);
  }

  /** Periodic reconciliation ticks exactly while the manager is started and not stopped. */
  lemma {:induction false} PeriodicWhileStarted(cfg: Config, inputs: seq<Input>)
    ensures
      var s := Run(cfg, inputs);
      s.live.periodic != {} <==> s.started && !s.stopped
  {
    hide Step;
    RunSafe(cfg, inputs);
    NoHandle(Run(cfg, inputs).periodic);
    if inputs == [] {
    } else {
      var init, input := inputs[..|inputs| - 1], inputs[|inputs| - 1];
      PeriodicWhileStarted(cfg, init);
      RunSafe(cfg, init);
      NoHandle(Run(cfg, init).periodic);
      StepLives(cfg, Run(cfg, init), input);
    }
  }

  /* ---------------- a refused snapshot ---------------- */

  /** What makes a snapshot worth sending again: Core took one, refused another one, or the contract was lost. */
  predicate Lifts(s: State, input: Input, rows: seq<Row>)
    requires Enabled(s, input)
  {
    match input
    case Start(obs) => obs.contract != Supported
    case SpawnedRuns(_, obs) => obs.contract != Supported
    case InventoryReplies(_, _, obs) => obs.contract != Supported
    case PublishReplies(index, reply, obs) =>
      var build := s.running[index].build;
      obs.contract != Supported || Taken(build, reply) || (Final(build, reply) && build.devices != rows)
    case _ => false
  }

  ghost predicate NothingLifts(cfg: Config, inputs: seq<Input>, more: seq<Input>, rows: seq<Row>) {
    forall i :: 0 <= i < |more| ==>
      var s := Run(cfg, inputs + more[..i]);
      Enabled(s, more[i]) ==> !Lifts(s, more[i], rows)
  }

  lemma {:induction false} StaysBarred(cfg: Config, inputs: seq<Input>, more: seq<Input>, rows: seq<Row>)
    requires BarredOf(cfg, inputs) == Some(rows) && NothingLifts(cfg, inputs, more, rows)
    ensures BarredOf(cfg, inputs + more) == Some(rows)
  {
    hide Run, BookOf, Sends, Taken, Final, Enabled;
    if more == [] {
      assert inputs + more == inputs;
    } else {
      var init, last := more[..|more| - 1], more[|more| - 1];
      assert NothingLifts(cfg, inputs, init, rows) by {
        forall i | 0 <= i < |init| ensures init[..i] == more[..i] && init[i] == more[i] {}
      }
      StaysBarred(cfg, inputs, init, rows);
      assert inputs + more == (inputs + init) + [last];
      OneMore(cfg, inputs + init, last);
      assert more[..|init|] == init;
    }
  }

  /**
   After a final refusal of a snapshot no unforced attempt that builds the same rows publishes, until Core takes
   a snapshot, refuses another one, or a new attempt finds the contract lost.
   */
  lemma RefusedIsNotSentAgain(
    cfg: Config, inputs: seq<Input>, index: nat, reply: PublishReply, obs: Observation, more: seq<Input>,
    later: nat, inv: seq<CoreDevice>, obs': Observation)
    requires Injective(cfg.digest)
    requires
      var refused := inputs + [PublishReplies(index, reply, obs)];
      && WellFormedRun(refused + more + [InventoryReplies(later, InventoryOk(inv), obs')])
      && Enabled(Run(cfg, inputs), PublishReplies(index, reply, obs))
      && (Run(cfg, inputs).pending ==> obs.contract == Supported)
      && Final(Run(cfg, inputs).running[index].build, reply)
      && NothingLifts(cfg, refused, more, Run(cfg, inputs).running[index].build.devices)
      && Enabled(Run(cfg, refused + more), InventoryReplies(later, InventoryOk(inv), obs'))
      && var k := Run(cfg, refused + more).running[later];
         !k.force && Resolved(k.candidates, k.ambiguous, inv).rows == Run(cfg, inputs).running[index].build.devices
    ensures
      var run := inputs + [PublishReplies(index, reply, obs)] + more + [InventoryReplies(later, InventoryOk(inv), obs')];
      forall j :: j in Run(cfg, run).running ==> j.AwaitInventory?
  {
    hide Run, BookOf, Final, Taken, NothingLifts, Resolved, BarredOf, WellFormedRun;
    var refused := inputs + [PublishReplies(index, reply, obs)];
    OneMore(cfg, inputs, PublishReplies(index, reply, obs));
    StaysBarred(cfg, refused, more, Run(cfg, inputs).running[index].build.devices);
    PublishesExactly(cfg, refused + more, later, inv, obs');
  }

  /* ---------------- what timers and requests lead to ---------------- */

  /** A request gives up the retry for one fresh debounce timer, whatever was armed before. */
  lemma RequestRestartsDebounce(cfg: Config, inputs: seq<Input>)
    requires !Run(cfg, inputs).stopped
    ensures
      var s, t := Run(cfg, inputs), Run(cfg, inputs + [RequestSync]);
      && t.live.retry == {} && t.live.periodic == s.live.periodic
      && t.live.debounce == {s.nextTimer} && t.nextTimer == s.nextTimer + 1
      && t.spawned == s.spawned && t.running == s.running
  {
    hide Run;
    OneMore(cfg, inputs, RequestSync);
    RunSafe(cfg, inputs);
    RunSafe(cfg, inputs + [RequestSync]);
    var s, t := Run(cfg, inputs), Run(cfg, inputs + [RequestSync]);
    NoHandle(t.retry);
    CancelLeaves(s);
    assert t.debounce == Some(s.nextTimer);
  }

  /** The debounce timer leads to an attempt that is not forced, the retry and the periodic timer to one that is. */
  lemma TimersSpawn(cfg: Config, inputs: seq<Input>, id: nat)
    requires !Run(cfg, inputs).stopped
    ensures
      var s := Run(cfg, inputs);
      && (id in s.live.debounce ==>
            var t := Run(cfg, inputs + [DebounceFires(id)]);
            t.spawned == s.spawned + [false] && t.live.debounce == {})
      && (id in s.live.retry ==>
            var t := Run(cfg, inputs + [RetryFires(id)]);
            t.spawned == s.spawned + [true] && t.live.retry == {})
      && (id in s.live.periodic ==>
            var t := Run(cfg, inputs + [PeriodicFires(id)]);
            t.spawned == s.spawned + [true] && t.live.periodic == {id})
  {
    hide Run;
    RunSafe(cfg, inputs);
    OneMore(cfg, inputs, DebounceFires(id));
    OneMore(cfg, inputs, RetryFires(id));
    OneMore(cfg, inputs, PeriodicFires(id));
  }

  lemma TurnSpawns(cfg: Config, s: State, force: bool, inTask: bool, obs: Observation)
    ensures LoopTurn(cfg, s, force, inTask, obs).spawned == s.spawned
  {
    hide BeginOnce, Ended, Waits;
    if !s.stopped {
      var u := Log(s.(pending := false, pendingForce := false), AttemptStarted(force));
      BeginOnceCode(cfg, u, force, inTask, obs);
      BeginSpawns(cfg, u, force, inTask, obs);
    }
  }

  lemma BeginSpawns(cfg: Config, s: State, force: bool, inTask: bool, obs: Observation)
    ensures BeginOnce(cfg, s, force, inTask, obs).spawned == s.spawned
  {
    hide BeginOnce, Backoff, OwnedTimers;
    BeginOnceCode(cfg, s, force, inTask, obs);
    assert FrameOf(cfg, BeginOnce(cfg, s, force, inTask, obs)).spawned == FrameOf(cfg, s).spawned;
  }

  /** A task's attempt asks Core with the task's force, and one that finds the lock held passes it on. */
  lemma TaskAttempts(cfg: Config, inputs: seq<Input>, index: nat, obs: Observation)
    requires index < |Run(cfg, inputs).spawned|
    ensures
      var s, t := Run(cfg, inputs), Run(cfg, inputs + [SpawnedRuns(index, obs)]);
      && t.spawned == Without(s.spawned, index)
      && (s.lockHeld ==> t.pending && t.pendingForce == (s.pendingForce || s.spawned[index]) && t.running == s.running)
      && (!s.lockHeld && obs.contract == Supported && obs.registry.Complete? ==>
            t.running == [AwaitInventory(s.spawned[index], obs.registry.candidates, obs.registry.ambiguous, true)])
  {
    hide Run, LoopTurn;
    RunSafe(cfg, inputs);
    OneMore(cfg, inputs, SpawnedRuns(index, obs));
    var s := Run(cfg, inputs);
    var u := s.(spawned := Without(s.spawned, index), lockHeld := true);
    TurnSpawns(cfg, u, s.spawned[index], true, obs);
    if obs.contract == Supported && obs.registry.Complete? { TurnWaits(cfg, u, s.spawned[index], true, obs); }
  }
}
