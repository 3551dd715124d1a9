/**
 The publisher as the source writes it: one object whose fields each step updates
 in place. `inputs` is what has happened to it, and every entry point keeps the
 state the one the step machine reaches by them; so the machine's theorems over
 runs are theorems about the object.
 */
module SyncManager {
  import opened Basics
  import opened EnrichmentTypes
  import opened Resolver
  import opened CoreRequest
  import opened SyncOutcome
  import opened SyncProtocol
  import opened SyncProperties
  import opened SyncTheorems
  import opened SyncCache
  import opened SyncReplies
  import opened SyncVerdicts

  class Manager {
    const cfg: Config

    var started: bool
    var stopped: bool
    var observed: bool
    var lockHeld: bool
    var running: seq<Continuation>
    var spawned: seq<bool>
    var pending: bool
    var pendingForce: bool
    var debounceCancel: Option<nat>
    var retryCancel: Option<nat>
    var periodicCancel: Option<nat>
    var scheduler: Live
    var nextTimer: nat
    var retryIndex: nat
    var reauthStarted: bool
    var lastFingerprint: Option<string>
    var lastFullResult: Option<CoreResult>
    var terminalFingerprint: Option<string>
    var diagnostics: Diagnostics
    ghost var log: seq<Event>
    ghost var inputs: seq<Input>

    ghost function Now(): State
      reads this
    {
      State(started, stopped, observed, lockHeld, running, spawned, pending, pendingForce,
            debounceCancel, retryCancel, periodicCancel, scheduler, nextTimer, retryIndex, reauthStarted,
            lastFingerprint, lastFullResult, terminalFingerprint, diagnostics, log)
    }

    /** The state is the one the step machine reaches by these inputs. */
    ghost predicate Valid() reads this { Now() == Run(cfg, inputs) }

    /** The end of the step an input takes. */
    ghost method Record(input: Input)
      requires Now() == Step(cfg, Run(cfg, inputs), input)
      modifies this`inputs
      ensures Valid() && inputs == old(inputs) + [input]
    {
      hide Step;
      assert (inputs + [input])[..|inputs|] == inputs;
      inputs := inputs + [input];
    }

    constructor (cfg: Config)
      ensures this.cfg == cfg && Valid() && inputs == []
    {
      this.cfg := cfg;
      started, stopped, observed, lockHeld, running, spawned := false, false, true, false, [], [];
      pending, pendingForce := false, false;
      debounceCancel, retryCancel, periodicCancel := None, None, None;
      scheduler, nextTimer, retryIndex, reauthStarted := Live({}, {}, {}), 0, 0, false;
      lastFingerprint, lastFullResult, terminalFingerprint := None, None, None;
      diagnostics := Diagnostics(NeverAttempted, Unknown, None, None, None, None, None, None, None);
      log := [];
      inputs := [];
    }

    /* ---------------- small actions ---------------- */

    ghost method Append(e: Event)
      modifies this`log
      ensures Now() == Log(old(Now()), e)
    {
      log := log + [e];
    }

    method CancelPendingRetry()
      modifies this
      ensures inputs == old(inputs)
      ensures Now() == CancelRetry(old(Now()))
    {
      if retryCancel.None? { return; }
      scheduler := scheduler.(retry := scheduler.retry - {retryCancel.value});
      retryCancel := None;
    }

    method ArmRetry(nextIndex: nat)
      modifies this
      ensures inputs == old(inputs)
      ensures Now() == old(Now()).(retryIndex := nextIndex, retry := Some(old(nextTimer)),
                                   live := old(scheduler).(retry := old(scheduler).retry + {old(nextTimer)}),
                                   nextTimer := old(nextTimer) + 1)
    {
      retryIndex := nextIndex;
      retryCancel := Some(nextTimer);
      scheduler := scheduler.(retry := scheduler.retry + {nextTimer});
      nextTimer := nextTimer + 1;
    }

    method ScheduleNextRetry()
      modifies this
      ensures inputs == old(inputs)
      ensures Now() == ScheduleRetry(cfg, old(Now()))
    {
      if stopped || cfg.retryDelays == [] || retryCancel.Some? { return; }
      var index := Min(retryIndex, |cfg.retryDelays| - 1);
      var delay := cfg.retryDelays[index];
      ArmRetry(Min(retryIndex + 1, |cfg.retryDelays| - 1));
      Append(RetryScheduled(delay));
    }

    method SpawnReconcile(force: bool)
      modifies this
      ensures inputs == old(inputs)
      ensures Now() == Spawn(old(Now()), force)
    {
      if stopped { return; }
      spawned := spawned + [force];
    }

    method Report(
      state: SyncState, outcome: Option<Outcome>, lastSuccessAt: Option<string>, failureReason: Option<string>)
      modifies this
      ensures inputs == old(inputs)
      ensures Now() == SetDiagnostics(old(Now()), state, outcome, lastSuccessAt, failureReason)
      ensures (outcome.Some? ==> Balanced(outcome.value) && (state == Successful || state == PartialAcceptance)) ==>
                BalancedCounts(diagnostics)
      ensures diagnostics.state == state && diagnostics.failureReason == SafeReason(failureReason)
      ensures diagnostics.lastSuccessAt == if lastSuccessAt.Some? then lastSuccessAt else old(diagnostics).lastSuccessAt
      ensures
        var changed := diagnostics != old(diagnostics).(lastSuccessAt := diagnostics.lastSuccessAt);
        log == old(log) + if !stopped && observed && changed then [Notified] else []
    {
      var previous := diagnostics;
      var next := NextDiagnostics(previous, state, outcome, lastSuccessAt, failureReason);
      diagnostics := next;
      var same := next.(lastSuccessAt := None) == previous.(lastSuccessAt := None);
      if stopped || !observed || same { return; }
      Append(Notified);
    }

    method ReportFailure(state: SyncState, reason: string)
      modifies this
      ensures inputs == old(inputs)
      ensures Now() == Fail(old(Now()), state, reason)
    {
      Report(state, None, None, Some(reason));
    }

    method SetTerminal(fingerprint: Option<string>)
      modifies this
      ensures inputs == old(inputs)
      ensures Now() == old(Now()).(terminalFingerprint := fingerprint)
    {
      terminalFingerprint := fingerprint;
    }

    method Forget()
      modifies this
      ensures inputs == old(inputs)
      ensures Now() == ForgetFull(old(Now()))
    {
      lastFingerprint := None;
      lastFullResult := None;
    }

    method Retry()
      modifies this
      ensures inputs == old(inputs)
      ensures Now() == EndRetrying(cfg, old(Now()))
    {
      ScheduleNextRetry();
      Append(AttemptEnded(true));
    }

    method GiveUp()
      modifies this
      ensures inputs == old(inputs)
      ensures Now() == EndQuietly(CancelRetry(old(Now())))
    {
      CancelPendingRetry();
      Append(AttemptEnded(false));
    }

    method FailAuthentication()
      modifies this
      ensures inputs == old(inputs)
      ensures Now() ==
        EndQuietly(Fail(CancelRetry(old(Now())).(reauthStarted := true), AuthenticationFailed, "authentication"))
    {
      hide Fail, CancelRetry;
      CancelPendingRetry();
      ghost var s := Now();
      if !reauthStarted {
        reauthStarted := true;
      }
      assert Now() == s.(reauthStarted := true);
      ReportFailure(AuthenticationFailed, "authentication");
      Append(AttemptEnded(false));
    }

    method FailAndRetry(state: SyncState, reason: string)
      modifies this
      ensures inputs == old(inputs)
      ensures Now() == EndRetrying(cfg, Fail(old(Now()), state, reason))
      ensures running == old(running) && pending == old(pending)
    {
      hide Fail, EndRetrying, Ended;
      ghost var s := Now();
      ReportFailure(state, reason);
      Retry();
      FailRetrying(cfg, s, state, reason);
      EndedKeeps(cfg, s, Now());
    }

    /* ---------------- one attempt ---------------- */

    method ForgetAll()
      modifies this
      ensures inputs == old(inputs)
      ensures Now() == ForgetFull(old(Now())).(terminalFingerprint := None)
    {
      Forget();
      SetTerminal(None);
    }

    method ContractLost(contract: ContractState)
      modifies this
      ensures inputs == old(inputs)
      ensures Now() == LoseContract(cfg, old(Now()), contract)
      ensures running == old(running) && pending == old(pending)
    {
      hide Fail, ForgetFull, EndRetrying, EndQuietly, CancelRetry, Ended, ContractSyncState, ContractReason;
      ghost var s := Now();
      ForgetAll();
      ReportFailure(ContractSyncState(contract), ContractReason(contract));
      if contract == ContractGone {
        Retry();
      } else {
        GiveUp();
      }
      LoseContractCode(cfg, s, contract);
      EndedKeeps(cfg, s, Now());
    }

    /** Up to the inventory await: `waiting` says whether the attempt goes on there. */
    method Begin(force: bool, inTask: bool, obs: Observation) returns (waiting: bool)
      modifies this
      ensures inputs == old(inputs)
      ensures Now() == BeginOnce(cfg, old(Now()), force, inTask, obs)
      ensures waiting == (|running| > |old(running)|)
      ensures pending == old(pending)
    {
      ghost var s := Now();
      if obs.contract != Supported {
        ContractLost(obs.contract);
        return false;
      }
      if obs.registry.Unavailable? {
        FailAndRetry(SourceUnavailable, "registry_unavailable");
        return false;
      }
      running := running + [AwaitInventory(force, obs.registry.candidates, obs.registry.ambiguous, inTask)];
      assert Now() == s.(running := running);
      return true;
    }

    /** From the inventory reply to the publish await; `raised` when the payload builder raises. */
    method HandleInventory(k: Continuation, reply: InventoryReply) returns (raised: bool)
      requires k.AwaitInventory?
      modifies this
      ensures inputs == old(inputs)
      ensures Now() == AfterInventory(cfg, old(Now()), k, reply)
      ensures raised <==> reply.InventoryOk? && BuildOf(cfg, k.candidates, k.ambiguous, reply.devices).None?
      ensures !reply.InventoryOk? ==>
                && (retryCancel.Some? <==> AskAgain(reply) && Armed(cfg, old(Now())))
                && terminalFingerprint == old(terminalFingerprint) && Displays(diagnostics, InventoryShown(reply))
    {
      hide Fail, EndRetrying, EndQuietly, CancelRetry, BuildOf, Decide, AskAgain, Displays, InventoryShown, Ended, Armed;
      ghost var s := Now();
      if !reply.InventoryOk? { InventoryLeaves(cfg, s, k, reply); }
      raised := false;
      match reply {
        case InventoryAuth =>
          FailAuthentication();
        case InventoryConnection =>
          FailAndRetry(InventoryUnavailable, "inventory_connection");
        case InventoryServer(category) =>
          FailAndRetry(ServerFailed, category);
        case InventoryRejected(status, category) =>
          ReportFailure(RequestRejected, category);
          if status == 429 { Retry(); } else { GiveUp(); }
        case InventoryInvalid =>
          FailAndRetry(InvalidResponse, "inventory_invalid_response");
        case InventoryOk(devices) =>
          var build := BuildSnapshot(k.candidates, k.ambiguous, devices);
          if build.None? {
            Append(AttemptRaised);
            raised := true;
          } else {
            UseBuild(k.force, build.value, k.inTask);
          }
      }
    }

    method BuildSnapshot(candidates: seq<Candidate>, ambiguous: nat, devices: seq<CoreDevice>)
      returns (build: Option<Build>)
      ensures build == BuildOf(cfg, candidates, ambiguous, devices)
    {
      var resolution := Resolve(candidates, ambiguous, devices);
      var payload := RequestPayload(resolution.rows);
      if payload.Err? { return None; }
      return Some(Build(resolution.rows, |candidates| + ambiguous, resolution.unmatched, resolution.ambiguous,
                        cfg.digest(payload.value)));
    }

    method FinishSnapshot(outcome: Option<Outcome>, lastSuccessAt: Option<string>)
      modifies this
      ensures inputs == old(inputs)
      ensures Now() == Finish(old(Now()), outcome, lastSuccessAt)
    {
      Report(Successful, outcome, lastSuccessAt, None);
      Append(AttemptEnded(false));
    }

    method UseBuild(force: bool, build: Build, inTask: bool)
      modifies this
      ensures inputs == old(inputs)
      ensures Now() == Decide(old(Now()), force, build, inTask)
    {
      if !force && lastFingerprint == Some(build.fingerprint) && lastFullResult.Some? {
        var outcome := CompletedOutcome(build, lastFullResult.value);
        if outcome.None? {
          Forget();
        } else {
          FinishSnapshot(outcome, None);
          return;
        }
      }
      RepeatFailureOrPublish(force, build, inTask);
    }

    method RepeatFailureOrPublish(force: bool, build: Build, inTask: bool)
      modifies this
      ensures inputs == old(inputs)
      ensures Now() == RepeatOrPublish(old(Now()), force, build, inTask)
    {
      ghost var s := Now();
      if !force && terminalFingerprint == Some(build.fingerprint) {
        Report(diagnostics.state, None, None, diagnostics.failureReason);
        Append(AttemptEnded(false));
        return;
      }
      running := running + [AwaitPublish(build, inTask)];
      assert Now() == s.(running := running);
    }

    method HandlePublish(k: Continuation, reply: PublishReply)
      requires k.AwaitPublish?
      modifies this
      ensures inputs == old(inputs)
      ensures Now() == AfterPublish(cfg, old(Now()), k, reply)
      ensures Conserved(k.build) ==>
                && (retryCancel.Some? <==> TryAgain(k.build, reply) && Armed(cfg, old(Now())))
                && terminalFingerprint == (if Final(k.build, reply) then Some(k.build.fingerprint)
                                           else if Taken(k.build, reply) then None else old(terminalFingerprint))
                && Displays(diagnostics, PublishShown(k.build, reply))
    {
      hide Fail, EndRetrying, EndQuietly, CancelRetry, UseResult, Distrust, Refuse, Displays, PublishShown, Armed,
        TryAgain, Final, Taken;
      ghost var s := Now();
      if Conserved(k.build) { PublishLeaves(cfg, s, k, reply); }
      match reply {
        case PublishAuth =>
          FailAuthentication();
        case PublishConnection =>
          FailAndRetry(ConnectionFailed, "connection");
        case PublishServer(category) =>
          FailAndRetry(ServerFailed, category);
        case PublishRejected(status, category) =>
          RefusedPublish(status, category, k.build);
        case PublishInvalid =>
          RejectReply("invalid_response", k.build);
        case PublishOk(result) =>
          TakeResult(k.build, result);
      }
    }

    method RefusedPublish(status: int, category: string, build: Build)
      modifies this
      ensures inputs == old(inputs)
      ensures Now() == Refuse(cfg, old(Now()), status, category, build)
      ensures status == 429 ==>
                (retryCancel.Some? <==> Armed(cfg, old(Now()))) && terminalFingerprint == old(terminalFingerprint)
      ensures status != 429 ==> retryCancel.None? && terminalFingerprint == Some(build.fingerprint)
    {
      hide Fail, EndRetrying, EndQuietly, CancelRetry, Displays;
      ghost var s := Now();
      FailRetryLeaves(cfg, s, if status == 404 then RouteUnsupported else RequestRejected, category);
      FailQuietLeaves(s, if status == 404 then RouteUnsupported else RequestRejected, category, Some(build.fingerprint));
      ReportFailure(if status == 404 then RouteUnsupported else RequestRejected, category);
      if status == 429 {
        Retry();
      } else {
        SetTerminal(Some(build.fingerprint));
        GiveUp();
      }
    }

    method TakeResult(build: Build, result: CoreResult)
      modifies this
      ensures inputs == old(inputs)
      ensures Now() == UseResult(cfg, old(Now()), build, result)
    {
      var outcome := CompletedOutcome(build, result);
      if outcome.None? {
        RejectReply("inconsistent_result", build);
      } else if !outcome.value.fullyConverged {
        KeepPart(outcome.value, result);
      } else {
        KeepAll(build, outcome.value, result);
      }
    }

    method RejectReply(reason: string, build: Build)
      modifies this
      ensures inputs == old(inputs)
      ensures Now() == Distrust(old(Now()), reason, build)
    {
      Forget();
      ReportFailure(InvalidResponse, reason);
      SetTerminal(Some(build.fingerprint));
      GiveUp();
    }

    method KeepPart(outcome: Outcome, result: CoreResult)
      modifies this
      ensures inputs == old(inputs)
      ensures Now() == AcceptPart(cfg, old(Now()), outcome, result)
    {
      SetTerminal(None);
      Forget();
      Report(PartialAcceptance, Some(outcome), result.lastPushAt, Some("partial_acceptance"));
      Retry();
    }

    method CacheResult(build: Build, result: CoreResult)
      modifies this
      ensures inputs == old(inputs)
      ensures Now() == old(Now()).(terminalFingerprint := None, lastFingerprint := Some(build.fingerprint),
                                   lastFullResult := Some(result), retryIndex := 0)
    {
      terminalFingerprint := None;
      lastFingerprint := Some(build.fingerprint);
      lastFullResult := Some(result);
      retryIndex := 0;
    }

    method KeepAll(build: Build, outcome: Outcome, result: CoreResult)
      modifies this
      ensures inputs == old(inputs)
      ensures Now() == AcceptAll(old(Now()), build, outcome, result)
    {
      CacheResult(build, result);
      CancelPendingRetry();
      Append(Converged);
      FinishSnapshot(Some(outcome), result.lastPushAt);
    }

    /* ---------------- the single-flight loop ---------------- */

    method ReleaseLock()
      modifies this
      ensures inputs == old(inputs)
      ensures Now() == Release(old(Now()))
    {
      lockHeld := false;
    }

    method ClearPending(force: bool)
      modifies this
      ensures inputs == old(inputs)
      ensures Now() == Log(old(Now()).(pending := false, pendingForce := false), AttemptStarted(force))
    {
      pending := false;
      pendingForce := false;
      Append(AttemptStarted(force));
    }

    /** The reconcile loop from its head, with the lock held, to its first await or its end. */
    method Loop(force: bool, inTask: bool, obs: Observation)
      modifies this
      ensures inputs == old(inputs)
      ensures Now() == LoopTurn(cfg, old(Now()), force, inTask, obs)
    {
      hide BeginOnce, Release;
      if !stopped {
        ClearPending(force);
        var waiting := Begin(force, inTask, obs);
        if waiting { return; }
        // Nothing else ran since `pending` was cleared, so the loop does not turn again here.
        assert !pending;
      }
      ReleaseLock();
    }

    /** The loop from where an attempt returned after an await. */
    method ContinueLoop(inTask: bool, obs: Observation)
      modifies this
      ensures inputs == old(inputs)
      ensures Now() == LoopTail(cfg, old(Now()), inTask, obs)
    {
      if !pending {
        lockHeld := false;
      } else {
        var requestedForce := pendingForce;
        Loop(requestedForce, inTask, obs);
      }
    }

    method AsyncReconcile(force: bool, inTask: bool, obs: Observation)
      modifies this
      ensures inputs == old(inputs)
      ensures Now() == Reconcile(cfg, old(Now()), force, inTask, obs)
    {
      hide LoopTurn;
      ghost var s := Now();
      if stopped { return; }
      if lockHeld {
        pending := true;
        pendingForce := pendingForce || force;
        assert Now() == s.(pending := true, pendingForce := pendingForce);
        return;
      }
      lockHeld := true;
      assert Now() == s.(lockHeld := true);
      Loop(force, inTask, obs);
    }

    /* ---------------- steps ---------------- */

    method AsyncStart(obs: Observation)
      requires Valid()
      modifies this
      ensures Valid() && inputs == old(inputs) + [Start(obs)]
    {
      hide Run, Reconcile, Started;
      if !started {
        RegisterOwners();
        AsyncReconcile(false, false, obs);
      }
      Record(Start(obs));
    }

    method MarkStarted()
      modifies this
      ensures inputs == old(inputs)
      ensures Now() == old(Now()).(started := true, stopped := false)
    {
      started := true;
      stopped := false;
    }

    method ArmPeriodic()
      modifies this
      ensures inputs == old(inputs)
      ensures Now() == old(Now()).(periodic := Some(old(nextTimer)),
                                   live := old(scheduler).(periodic := old(scheduler).periodic + {old(nextTimer)}),
                                   nextTimer := old(nextTimer) + 1)
    {
      periodicCancel := Some(nextTimer);
      scheduler := scheduler.(periodic := scheduler.periodic + {nextTimer});
      nextTimer := nextTimer + 1;
    }

    method RegisterOwners()
      modifies this
      ensures inputs == old(inputs)
      ensures Now() == Started(old(Now()))
    {
      MarkStarted();
      ArmPeriodic();
      Append(Requested(false));
    }

    method MarkStopped()
      modifies this
      ensures inputs == old(inputs)
      ensures Now() == old(Now()).(stopped := true, observed := false)
    {
      stopped := true;
      observed := false;
    }

    method CancelTimers()
      modifies this
      ensures inputs == old(inputs)
      ensures
        var s := old(Now());
        Now() == s.(live := Live(s.live.debounce - HandleSet(s.debounce), s.live.retry - HandleSet(s.retry),
                                 s.live.periodic - HandleSet(s.periodic)),
                    debounce := None, retry := None, periodic := None)
    {
      hide HandleSet;
      scheduler := Live(scheduler.debounce - HandleSet(debounceCancel), scheduler.retry - HandleSet(retryCancel),
                        scheduler.periodic - HandleSet(periodicCancel));
      debounceCancel, retryCancel, periodicCancel := None, None, None;
    }

    method CancelOwners()
      modifies this
      ensures inputs == old(inputs)
      ensures Now() == DropOwners(old(Now()))
    {
      MarkStopped();
      CancelTimers();
    }

    method AsyncStop()
      requires Valid()
      modifies this
      ensures Valid() && inputs == old(inputs) + [Stop]
    {
      hide Run, DropOwners, CancelTasks;
      if !stopped {
        CancelOwners();
        CancelRunning();
        Append(Stopped);
      }
      Record(Stop);
    }

    /** Cancelling a task in the middle of an attempt releases the lock. */
    method CancelRunning()
      modifies this
      ensures inputs == old(inputs)
      ensures Now() == CancelTasks(old(Now()))
    {
      ghost var s := Now();
      var kept := KeptRunning(running);
      lockHeld := lockHeld && |kept| == |running|;
      running := kept;
      spawned := [];
      assert Now() == s.(spawned := [], running := kept, lockHeld := lockHeld);
    }

    method DropDebounce()
      modifies this
      ensures inputs == old(inputs)
      ensures Now() == CancelDebounce(old(Now()))
    {
      ghost var s := Now();
      if debounceCancel.Some? {
        scheduler := scheduler.(debounce := scheduler.debounce - {debounceCancel.value});
      }
      debounceCancel := None;
      assert scheduler.debounce == s.live.debounce - HandleSet(s.debounce);
      assert Now() == s.(live := scheduler, debounce := None);
    }

    method ArmDebounce()
      modifies this
      ensures inputs == old(inputs)
      ensures Now() == old(Now()).(debounce := Some(old(nextTimer)),
                                   live := old(scheduler).(debounce := old(scheduler).debounce + {old(nextTimer)}),
                                   nextTimer := old(nextTimer) + 1)
    {
      debounceCancel := Some(nextTimer);
      scheduler := scheduler.(debounce := scheduler.debounce + {nextTimer});
      nextTimer := nextTimer + 1;
    }

    method AsyncRequestSync()
      requires Valid()
      modifies this
      ensures Valid() && inputs == old(inputs) + [RequestSync]
    {
      hide Run, CancelRetry, CancelDebounce;
      if !stopped {
        CancelPendingRetry();
        DropDebounce();
        ArmDebounce();
        Append(Requested(false));
      }
      Record(RequestSync);
    }

    method RunDebounced(id: nat)
      requires Valid() && id in scheduler.debounce
      modifies this
      ensures Valid() && inputs == old(inputs) + [DebounceFires(id)]
    {
      hide Run, Spawn;
      DropFiredDebounce(id);
      SpawnReconcile(false);
      Record(DebounceFires(id));
    }

    method DropFiredDebounce(id: nat)
      modifies this
      ensures inputs == old(inputs)
      ensures
        Now() == old(Now()).(live := old(scheduler).(debounce := old(scheduler).debounce - {id}), debounce := None)
    {
      scheduler := scheduler.(debounce := scheduler.debounce - {id});
      debounceCancel := None;
    }

    method DropFiredRetry(id: nat)
      modifies this
      ensures inputs == old(inputs)
      ensures Now() == old(Now()).(live := old(scheduler).(retry := old(scheduler).retry - {id}), retry := None)
    {
      scheduler := scheduler.(retry := scheduler.retry - {id});
      retryCancel := None;
    }

    method RunRetry(id: nat)
      requires Valid() && id in scheduler.retry
      modifies this
      ensures Valid() && inputs == old(inputs) + [RetryFires(id)]
    {
      hide Run, Spawn;
      DropFiredRetry(id);
      SpawnReconcile(true);
      Append(Requested(true));
      Record(RetryFires(id));
    }

    method HandlePeriodicReconciliation(id: nat)
      requires Valid() && id in scheduler.periodic
      modifies this
      ensures Valid() && inputs == old(inputs) + [PeriodicFires(id)]
    {
      hide Run, Spawn;
      SpawnReconcile(true);
      Append(Requested(true));
      Record(PeriodicFires(id));
    }

    method RunSpawned(index: nat, obs: Observation)
      requires Valid() && index < |spawned|
      modifies this
      ensures Valid() && inputs == old(inputs) + [SpawnedRuns(index, obs)]
    {
      hide Run, Reconcile, Without;
      var force := TakeSpawned(index);
      AsyncReconcile(force, true, obs);
      Record(SpawnedRuns(index, obs));
    }

    method TakeSpawned(index: nat) returns (force: bool)
      requires index < |spawned|
      modifies this
      ensures inputs == old(inputs)
      ensures force == old(spawned)[index]
      ensures Now() == old(Now()).(spawned := Without(old(spawned), index))
    {
      force := spawned[index];
      spawned := Without(spawned, index);
    }

    method TakeRunning(index: nat) returns (k: Continuation)
      requires index < |running|
      modifies this
      ensures inputs == old(inputs)
      ensures k == old(running)[index]
      ensures Now() == old(Now()).(running := Without(old(running), index))
    {
      k := running[index];
      running := Without(running, index);
    }

    /** The inventory reply of a waiting attempt, and what the loop does next. */
    method ResumeInventory(index: nat, reply: InventoryReply, obs: Observation)
      requires Valid() && index < |running| && running[index].AwaitInventory?
      modifies this
      ensures Valid() && inputs == old(inputs) + [InventoryReplies(index, reply, obs)]
    {
      hide Run, AfterInventory, LoopTail, BuildOf, Resume, Release, Without;
      var k := TakeRunning(index);
      var others := |running|;
      ghost var s := Now();
      var raised := HandleInventory(k, reply);
      InventoryResumes(cfg, s, k, reply, obs);
      if |running| <= others {
        if raised {
          ReleaseLock();
        } else {
          ContinueLoop(k.inTask, obs);
        }
      }
      Record(InventoryReplies(index, reply, obs));
    }

    /** The publish reply of a waiting attempt, and what the loop does next. */
    method ResumePublish(index: nat, reply: PublishReply, obs: Observation)
      requires Valid() && index < |running| && running[index].AwaitPublish?
      modifies this
      ensures Valid() && inputs == old(inputs) + [PublishReplies(index, reply, obs)]
    {
      hide Run, AfterPublish, LoopTail, Resume, Without;
      var k := TakeRunning(index);
      ghost var s := Now();
      HandlePublish(k, reply);
      PublishResumes(cfg, s, k, reply, obs);
      ContinueLoop(k.inTask, obs);
      Record(PublishReplies(index, reply, obs));
    }
  }

  /* ---------------- what every manager keeps ---------------- */

  /** Whatever has happened to a manager: one attempt at a time, timers it can cancel, and silence after stop. */
  lemma ManagerKeepsOrder(m: Manager)
    requires m.Valid()
    ensures |m.running| <= 1 && (m.lockHeld <==> |m.running| == 1)
    ensures forall id :: id in m.scheduler.retry <==> m.retryCancel == Some(id)
    ensures forall id :: id in m.scheduler.debounce <==> m.debounceCancel == Some(id)
    ensures m.started && m.stopped ==> m.scheduler == Live({}, {}, {}) && m.spawned == []
  {
    hide Run;
    SingleFlight(m.cfg, m.inputs);
    NoLeakedTimers(m.cfg, m.inputs);
    if m.started && m.stopped {
      StoppedForGood(m.cfg, m.inputs, []);
      assert m.inputs + [] == m.inputs;
    }
  }

  /** A manager that has not stopped and has nothing under way has served every request since any stop and owes no retry. */
  lemma IdleManagerOwesNothing(m: Manager, i: nat)
    requires m.Valid() && !m.stopped && AttemptRaised !in m.log
    requires !m.lockHeld && m.spawned == [] && m.scheduler.debounce == {} && i < |m.log| && NoStop(m.log, i)
    ensures m.log[i].Requested? ==> Served(m.log, i)
    ensures
      var last := m.log[i] == AttemptEnded(true) && forall j :: i < j < |m.log| ==> !m.log[j].AttemptEnded?;
      last && m.cfg.retryDelays != [] ==> m.scheduler.retry != {}
  {
    hide Run;
    if m.log[i].Requested? { IdleMeansServed(m.cfg, m.inputs, i); }
    if m.log[i] == AttemptEnded(true) && (forall j :: i < j < |m.log| ==> !m.log[j].AttemptEnded?)
       && m.cfg.retryDelays != [] {
      NoStall(m.cfg, m.inputs, i);
    }
  }

  /** The cache of a manager whose sources were well-formed is that of the last publish Core fully kept. */
  lemma ManagerCacheIsTrusted(m: Manager)
    requires m.Valid() && Injective(m.cfg.digest) && WellFormedRun(m.inputs)
    ensures CacheDescribes(m.cfg, m.Now(), BookOf(m.cfg, m.inputs).trusted) && BalancedCounts(m.diagnostics)
  {
    hide Run, BookOf, CacheDescribes, BalancedCounts;
    CacheIsLastFullPublish(m.cfg, m.inputs);
    CountsBalance(m.cfg, m.inputs);
  }

  /** The snapshot a manager will not send again is the one its last replies bar. */
  lemma ManagerBarsRefused(m: Manager)
    requires m.Valid() && Injective(m.cfg.digest) && WellFormedRun(m.inputs)
    ensures
      var barred := BarredOf(m.cfg, m.inputs);
      m.terminalFingerprint == if barred.Some? then Some(m.cfg.digest(barred.value)) else None
  {
    hide Run, BarredOf;
    TerminalIsBarred(m.cfg, m.inputs);
  }

  /** The last success a manager shows is the last push Core took, and it looks for work periodically while it runs. */
  lemma ManagerShowsLastPush(m: Manager)
    requires m.Valid()
    ensures m.scheduler.periodic != {} <==> m.started && !m.stopped
    ensures Injective(m.cfg.digest) && WellFormedRun(m.inputs) ==> m.diagnostics.lastSuccessAt == LastPushOf(m.cfg, m.inputs)
  {
    hide Run, LastPushOf, WellFormedRun;
    PeriodicWhileStarted(m.cfg, m.inputs);
    if Injective(m.cfg.digest) && WellFormedRun(m.inputs) { LastSuccessIsLastPush(m.cfg, m.inputs); }
  }

  /** A manager with delays that has just got a reply to a publish has a retry pending exactly if the reply calls for one. */
  lemma ManagerRetriesExactly(m: Manager, before: seq<Input>, index: nat, reply: PublishReply, obs: Observation)
    requires m.Valid() && m.inputs == before + [PublishReplies(index, reply, obs)]
    requires Injective(m.cfg.digest) && WellFormedRun(m.inputs) && m.cfg.retryDelays != []
    requires
      var s := Run(m.cfg, before);
      !s.stopped && !s.pending && Enabled(s, PublishReplies(index, reply, obs))
    ensures m.scheduler.retry != {} <==> TryAgain(Run(m.cfg, before).running[index].build, reply)
  {
    hide Run, TryAgain, Displays;
    Prefix(before, PublishReplies(index, reply, obs));
    PublishSettles(m.cfg, before, index, reply, obs);
  }
}
