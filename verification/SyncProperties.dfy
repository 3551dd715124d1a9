/**
 What every run of the publisher keeps: one attempt at a time, no lost request,
 no stalled retry, exact backoff, no leaked timer, silence after stop, balanced
 diagnostics and a cache that describes the last publish Core fully kept.
 */
module SyncProperties {
  import opened Basics
  import opened EnrichmentTypes
  import opened Resolver
  import opened ResolverProperties
  import opened CoreRequest
  import opened SyncOutcome
  import opened SyncProtocol

  /* ---------------- what a log says ---------------- */

  /**
   A summary of a log. `weak` and `strong`: a request without (with) force has had no attempt start at
   least as strong, and no stop, since. `retries`: retries scheduled since the last fully converged publish.
   `endedRetrying`: the last attempt to end asked for a retry. `raised`: an exception has escaped an
   attempt. `exact`: every retry had the delay its position since the last convergence calls for.
   */
  datatype Ledger = Ledger(
    weak: bool, strong: bool, retries: nat, endedRetrying: bool, raised: bool, exact: bool)

  function Enter(l: Ledger, e: Event, delays: seq<nat>): Ledger {
    match e
    case Requested(force) => if force then l.(strong := true) else l.(weak := true)
    case AttemptStarted(force) => l.(weak := false, strong := l.strong && !force)
    case AttemptEnded(retries) => l.(endedRetrying := retries)
    case AttemptRaised => l.(raised := true)
    case Stopped => l.(weak := false, strong := false, endedRetrying := false)
    case RetryScheduled(delay) =>
      l.(retries := l.retries + 1,
         exact := l.exact && delays != [] && delay == delays[Min(l.retries, |delays| - 1)])
    case Converged => l.(retries := 0)
    case Notified => l
  }

  function Sum(log: seq<Event>, delays: seq<nat>): Ledger {
    if log == [] then Ledger(false, false, 0, false, false, true)
    else Enter(Sum(log[..|log| - 1], delays), log[|log| - 1], delays)
  }

  lemma Appended(log: seq<Event>, e: Event, delays: seq<nat>)
    ensures Sum(log + [e], delays) == Enter(Sum(log, delays), e, delays)
  {
    assert (log + [e])[..|log|] == log;
  }

  function Summary(cfg: Config, s: State): Ledger { Sum(s.log, cfg.retryDelays) }

  /* ---------------- the invariant ---------------- */

  ghost predicate OneFlight(s: State) {
    |s.running| <= 1 && (s.lockHeld <==> |s.running| == 1)
  }

  /** The scheduler holds exactly the timers the manager has handles on: at most one of a kind. */
  ghost predicate OwnedTimers(s: State) {
    && s.live.debounce == HandleSet(s.debounce)
    && s.live.retry == HandleSet(s.retry)
    && s.live.periodic == HandleSet(s.periodic)
  }

  predicate NoTimers(s: State) { s.live == Live({}, {}, {}) }

  ghost predicate Silent(s: State) {
    NoTimers(s) && s.spawned == [] && !s.observed
  }

  ghost predicate Lifecycle(s: State) {
    && (s.stopped ==> Silent(s))
    && (!s.started ==> s.periodic.None?)
  }

  /** Each waiting request is on its way to an attempt at least as strong. */
  ghost predicate Carried(cfg: Config, s: State) {
    && (s.pending ==> s.lockHeld)
    && (Summary(cfg, s).weak ==> s.debounce.Some? || s.spawned != [] || s.pending)
    && (Summary(cfg, s).strong ==> true in s.spawned || (s.pending && s.pendingForce))
  }

  ghost predicate Moving(cfg: Config, s: State) {
    Summary(cfg, s).endedRetrying && cfg.retryDelays != [] ==>
      s.retry.Some? || s.debounce.Some? || s.spawned != [] || s.lockHeld
  }

  ghost predicate Backoff(cfg: Config, s: State) {
    && Summary(cfg, s).exact
    && s.retryIndex == if cfg.retryDelays == [] then 0 else Min(Summary(cfg, s).retries, |cfg.retryDelays| - 1)
  }

  /** A stop voids what was requested before it. */
  ghost predicate Voided(cfg: Config, s: State) { s.stopped ==> !Summary(cfg, s).strong }

  ghost predicate Safe(cfg: Config, s: State) {
    && OneFlight(s) && OwnedTimers(s) && Lifecycle(s) && Voided(cfg, s) && Backoff(cfg, s)
    && (!s.stopped && !Summary(cfg, s).raised ==> Carried(cfg, s) && Moving(cfg, s))
  }

  /* ---------------- attempt code ---------------- */

  /** The part of a state that the code of an attempt leaves alone. */
  datatype Frame = Frame(
    started: bool, stopped: bool, observed: bool, lockHeld: bool, spawned: seq<bool>, pending: bool, pendingForce: bool,
    debounce: Option<nat>, periodic: Option<nat>, weak: bool, strong: bool)

  function FrameOf(cfg: Config, s: State): Frame {
    var l := Summary(cfg, s);
    Frame(s.started, s.stopped, s.observed, s.lockHeld, s.spawned, s.pending, s.pendingForce, s.debounce, s.periodic,
          l.weak, l.strong)
  }

  /** What the code of one attempt may change between `s` and `t`. */
  ghost predicate AttemptCode(cfg: Config, s: State, t: State) {
    && FrameOf(cfg, t) == FrameOf(cfg, s)
    && (OwnedTimers(s) ==> OwnedTimers(t))
    && (s.stopped && NoTimers(s) ==> NoTimers(t))
    && (s.stopped ==> t.nextTimer == s.nextTimer)
    && (Backoff(cfg, s) ==> Backoff(cfg, t))
  }

  /** Attempt code that has not yet ended. */
  ghost predicate Unended(cfg: Config, s: State, t: State) {
    && AttemptCode(cfg, s, t) && t.running == s.running
    && Summary(cfg, t).endedRetrying == Summary(cfg, s).endedRetrying && Summary(cfg, t).raised == Summary(cfg, s).raised
  }

  ghost predicate Ended(cfg: Config, s: State, t: State) {
    && AttemptCode(cfg, s, t) && t.running == s.running
    && t.log != [] && t.log[|t.log| - 1].AttemptEnded? && Summary(cfg, t).raised == Summary(cfg, s).raised
    && (Summary(cfg, t).endedRetrying && cfg.retryDelays != [] && !s.stopped ==> t.retry.Some?)
  }

  ghost predicate Waits(cfg: Config, s: State, t: State) {
    && AttemptCode(cfg, s, t) && |t.running| == |s.running| + 1
    && Summary(cfg, t).endedRetrying == Summary(cfg, s).endedRetrying && Summary(cfg, t).raised == Summary(cfg, s).raised
  }

  lemma ThenUnended(cfg: Config, s: State, t: State, u: State)
    requires Unended(cfg, s, t) && Unended(cfg, t, u)
    ensures Unended(cfg, s, u)
  {
  }

  lemma ThenEnded(cfg: Config, s: State, t: State, u: State)
    requires Unended(cfg, s, t) && Ended(cfg, t, u)
    ensures Ended(cfg, s, u)
  {
  }

  lemma LogCode(cfg: Config, s: State, e: Event)
    requires e.Notified?
    ensures Unended(cfg, s, Log(s, e))
  {
    Appended(s.log, e, cfg.retryDelays);
  }

  lemma CancelRetryCode(cfg: Config, s: State)
    ensures Unended(cfg, s, CancelRetry(s))
  {
    var t := CancelRetry(s);
    if s.retry.None? {} else { assert t == s.(live := t.live, retry := None); }
  }

  lemma ScheduleRetryCode(cfg: Config, s: State)
    ensures Unended(cfg, s, ScheduleRetry(cfg, s))
    ensures cfg.retryDelays != [] && !s.stopped ==> ScheduleRetry(cfg, s).retry.Some?
  {
    if !(s.stopped || cfg.retryDelays == [] || s.retry.Some?) {
      Appended(s.log, RetryScheduled(cfg.retryDelays[Min(s.retryIndex, |cfg.retryDelays| - 1)]), cfg.retryDelays);
    }
  }

  lemma ShowKeeps(s: State, next: Diagnostics)
    ensures
      var t := Show(s, next);
      t == s.(diagnostics := next, log := t.log)
  {
  }

  lemma ScheduleKeeps(cfg: Config, s: State)
    ensures
      var t := ScheduleRetry(cfg, s);
      t == s.(retryIndex := t.retryIndex, retry := t.retry, live := t.live, nextTimer := t.nextTimer, log := t.log)
  {
  }

  lemma ShowCode(cfg: Config, s: State, next: Diagnostics)
    ensures Unended(cfg, s, Show(s, next))
  {
    var t := s.(diagnostics := next);
    DiagnosticsCode(cfg, s, next);
    LogCode(cfg, t, Notified);
    ThenUnended(cfg, s, t, Log(t, Notified));
    assert Show(s, next) == t || Show(s, next) == Log(t, Notified);
  }

  lemma DiagnosticsCode(cfg: Config, s: State, next: Diagnostics)
    ensures Unended(cfg, s, s.(diagnostics := next))
  {
  }

  lemma SetDiagnosticsCode(
    cfg: Config, s: State, state: SyncState, outcome: Option<Outcome>, lastSuccessAt: Option<string>,
    reason: Option<string>)
    ensures Unended(cfg, s, SetDiagnostics(s, state, outcome, lastSuccessAt, reason))
  {
    ShowCode(cfg, s, NextDiagnostics(s.diagnostics, state, outcome, lastSuccessAt, reason));
  }

  lemma EndRetryingCode(cfg: Config, s: State)
    ensures Ended(cfg, s, EndRetrying(cfg, s))
  {
    ScheduleRetryCode(cfg, s);
    Appended(ScheduleRetry(cfg, s).log, AttemptEnded(true), cfg.retryDelays);
  }

  lemma EndQuietlyCode(cfg: Config, s: State)
    ensures Ended(cfg, s, EndQuietly(s))
  {
    Appended(s.log, AttemptEnded(false), cfg.retryDelays);
  }

  lemma CancelledCode(cfg: Config, s: State)
    ensures Ended(cfg, s, EndQuietly(CancelRetry(s)))
  {
    CancelRetryCode(cfg, s);
    EndQuietlyCode(cfg, CancelRetry(s));
    ThenEnded(cfg, s, CancelRetry(s), EndQuietly(CancelRetry(s)));
  }

  /** Reporting a failure and asking for a retry. */
  lemma FailRetrying(cfg: Config, s: State, state: SyncState, reason: string)
    ensures Ended(cfg, s, EndRetrying(cfg, Fail(s, state, reason)))
  {
    var t := Fail(s, state, reason);
    SetDiagnosticsCode(cfg, s, state, None, None, Some(reason));
    EndRetryingCode(cfg, t);
    ThenEnded(cfg, s, t, EndRetrying(cfg, t));
  }

  lemma TerminalCode(cfg: Config, s: State, terminal: Option<string>)
    ensures Unended(cfg, s, s.(terminalFingerprint := terminal))
  {
  }

  /** Reporting a failure and giving up on it. */
  lemma FailQuietly(cfg: Config, s: State, state: SyncState, reason: string, terminal: Option<string>)
    ensures Ended(cfg, s, EndQuietly(CancelRetry(Fail(s, state, reason).(terminalFingerprint := terminal))))
  {
    var t := Fail(s, state, reason);
    var u := t.(terminalFingerprint := terminal);
    SetDiagnosticsCode(cfg, s, state, None, None, Some(reason));
    TerminalCode(cfg, t, terminal);
    ThenUnended(cfg, s, t, u);
    CancelledCode(cfg, u);
    ThenEnded(cfg, s, u, EndQuietly(CancelRetry(u)));
  }

  lemma AuthCode(cfg: Config, s: State)
    ensures Ended(cfg, s,
      EndQuietly(Fail(CancelRetry(s).(reauthStarted := true), AuthenticationFailed, "authentication")))
  {
    CancelRetryCode(cfg, s);
    var t := CancelRetry(s).(reauthStarted := true);
    assert Unended(cfg, s, t);
    var u := Fail(t, AuthenticationFailed, "authentication");
    SetDiagnosticsCode(cfg, t, AuthenticationFailed, None, None, Some("authentication"));
    ThenUnended(cfg, s, t, u);
    EndQuietlyCode(cfg, u);
    ThenEnded(cfg, s, u, EndQuietly(u));
  }

  lemma FinishCode(cfg: Config, s: State, outcome: Option<Outcome>, lastSuccessAt: Option<string>)
    ensures Ended(cfg, s, Finish(s, outcome, lastSuccessAt))
  {
    var t := SetDiagnostics(s, Successful, outcome, lastSuccessAt, None);
    SetDiagnosticsCode(cfg, s, Successful, outcome, lastSuccessAt, None);
    EndQuietlyCode(cfg, t);
    ThenEnded(cfg, s, t, EndQuietly(t));
  }

  /** Either the attempt ended in `t`, or it waits there for a reply. */
  ghost predicate Progressed(cfg: Config, s: State, t: State) { Ended(cfg, s, t) || Waits(cfg, s, t) }

  lemma ForgetFullCode(cfg: Config, s: State)
    ensures Unended(cfg, s, ForgetFull(s))
  {
  }

  lemma LoseContractCode(cfg: Config, s: State, contract: ContractState)
    ensures Ended(cfg, s, LoseContract(cfg, s, contract))
  {
    var t := ForgetFull(s);
    var u := t.(terminalFingerprint := None);
    ForgetFullCode(cfg, s);
    TerminalCode(cfg, t, None);
    ThenUnended(cfg, s, t, u);
    var state, reason := ContractSyncState(contract), ContractReason(contract);
    if contract == ContractGone {
      FailRetrying(cfg, u, state, reason);
      ThenEnded(cfg, s, u, EndRetrying(cfg, Fail(u, state, reason)));
    } else {
      SetDiagnosticsCode(cfg, u, state, None, None, Some(reason));
      ThenUnended(cfg, s, u, Fail(u, state, reason));
      CancelledCode(cfg, Fail(u, state, reason));
      ThenEnded(cfg, s, Fail(u, state, reason), EndQuietly(CancelRetry(Fail(u, state, reason))));
    }
  }

  lemma WaitCode(cfg: Config, s: State, k: Continuation)
    ensures Waits(cfg, s, s.(running := s.running + [k]))
  {
  }

  lemma BeginOnceCode(cfg: Config, s: State, force: bool, inTask: bool, obs: Observation)
    ensures Progressed(cfg, s, BeginOnce(cfg, s, force, inTask, obs))
  {
    if obs.contract != Supported {
      LoseContractCode(cfg, s, obs.contract);
    } else if obs.registry.Unavailable? {
      FailRetrying(cfg, s, SourceUnavailable, "registry_unavailable");
    } else {
      WaitCode(cfg, s, AwaitInventory(force, obs.registry.candidates, obs.registry.ambiguous, inTask));
    }
  }

  lemma RepeatOrPublishCode(cfg: Config, s: State, force: bool, build: Build, inTask: bool)
    ensures Progressed(cfg, s, RepeatOrPublish(s, force, build, inTask))
  {
    if !force && s.terminalFingerprint == Some(build.fingerprint) {
      var u := SetDiagnostics(s, s.diagnostics.state, None, None, s.diagnostics.failureReason);
      SetDiagnosticsCode(cfg, s, s.diagnostics.state, None, None, s.diagnostics.failureReason);
      EndQuietlyCode(cfg, u);
      ThenEnded(cfg, s, u, EndQuietly(u));
    } else {
      WaitCode(cfg, s, AwaitPublish(build, inTask));
    }
  }

  lemma ThenProgressed(cfg: Config, s: State, t: State, u: State)
    requires Unended(cfg, s, t) && Progressed(cfg, t, u)
    ensures Progressed(cfg, s, u)
  {
    if Ended(cfg, t, u) { ThenEnded(cfg, s, t, u); }
  }

  lemma DecideCode(cfg: Config, s: State, force: bool, build: Build, inTask: bool)
    ensures Progressed(cfg, s, Decide(s, force, build, inTask))
  {
    RepeatOrPublishCode(cfg, s, force, build, inTask);
    if !force && s.lastFingerprint == Some(build.fingerprint) && s.lastFullResult.Some? {
      var outcome := CompletedOutcome(build, s.lastFullResult.value);
      if outcome.Some? {
        FinishCode(cfg, s, outcome, None);
      } else {
        ForgetFullCode(cfg, s);
        RepeatOrPublishCode(cfg, ForgetFull(s), force, build, inTask);
        ThenProgressed(cfg, s, ForgetFull(s), RepeatOrPublish(ForgetFull(s), force, build, inTask));
      }
    }
  }

  lemma SameTerminal(s: State, state: SyncState, reason: string)
    ensures Fail(s, state, reason).(terminalFingerprint := s.terminalFingerprint) == Fail(s, state, reason)
  {
    hide NextDiagnostics;
  }

  lemma AfterInventoryCode(cfg: Config, s: State, k: Continuation, reply: InventoryReply)
    requires k.AwaitInventory?
    ensures if reply.InventoryOk? && BuildOf(cfg, k.candidates, k.ambiguous, reply.devices).None?
            then AfterInventory(cfg, s, k, reply) == Log(s, AttemptRaised)
            else Progressed(cfg, s, AfterInventory(cfg, s, k, reply))
  {
    hide BuildOf, Decide, Fail, EndRetrying, EndQuietly, CancelRetry, Ended, Waits;
    match reply {
      case InventoryAuth => AuthCode(cfg, s);
      case InventoryConnection => FailRetrying(cfg, s, InventoryUnavailable, "inventory_connection");
      case InventoryServer(category) => FailRetrying(cfg, s, ServerFailed, category);
      case InventoryRejected(_, category) =>
        FailRetrying(cfg, s, RequestRejected, category);
        SameTerminal(s, RequestRejected, category);
        FailQuietly(cfg, s, RequestRejected, category, s.terminalFingerprint);
      case InventoryInvalid => FailRetrying(cfg, s, InvalidResponse, "inventory_invalid_response");
      case InventoryOk(devices) =>
        var build := BuildOf(cfg, k.candidates, k.ambiguous, devices);
        if build.Some? { DecideCode(cfg, s, k.force, build.value, k.inTask); }
    }
  }

  lemma DistrustCode(cfg: Config, s: State, reason: string, build: Build)
    ensures Ended(cfg, s, Distrust(s, reason, build))
  {
    ForgetFullCode(cfg, s);
    FailQuietly(cfg, ForgetFull(s), InvalidResponse, reason, Some(build.fingerprint));
    ThenEnded(cfg, s, ForgetFull(s), Distrust(s, reason, build));
  }

  lemma AcceptPartCode(cfg: Config, s: State, outcome: Outcome, result: CoreResult)
    ensures Ended(cfg, s, AcceptPart(cfg, s, outcome, result))
  {
    var t := s.(terminalFingerprint := None);
    TerminalCode(cfg, s, None);
    ForgetFullCode(cfg, t);
    ThenUnended(cfg, s, t, ForgetFull(t));
    var reason := Some("partial_acceptance");
    SetDiagnosticsCode(cfg, ForgetFull(t), PartialAcceptance, Some(outcome), result.lastPushAt, reason);
    var u := SetDiagnostics(ForgetFull(t), PartialAcceptance, Some(outcome), result.lastPushAt, reason);
    ThenUnended(cfg, s, ForgetFull(t), u);
    EndRetryingCode(cfg, u);
    ThenEnded(cfg, s, u, EndRetrying(cfg, u));
  }

  lemma CacheCode(cfg: Config, s: State, build: Build, result: CoreResult)
    ensures Unended(cfg, s, s.(terminalFingerprint := None, lastFingerprint := Some(build.fingerprint),
                               lastFullResult := Some(result)))
  {
  }

  lemma ConvergeCode(cfg: Config, s: State)
    ensures Unended(cfg, s, Log(s.(retryIndex := 0), Converged))
  {
    Appended(s.log, Converged, cfg.retryDelays);
  }

  lemma RememberCode(cfg: Config, s: State, build: Build, result: CoreResult)
    ensures Unended(cfg, s, Remember(s, build, result))
  {
    var t := s.(terminalFingerprint := None, lastFingerprint := Some(build.fingerprint),
                lastFullResult := Some(result));
    var u := CancelRetry(t);
    var v := Log(u.(retryIndex := 0), Converged);
    CacheCode(cfg, s, build, result);
    CancelRetryCode(cfg, t);
    ThenUnended(cfg, s, t, u);
    ConvergeCode(cfg, u);
    ThenUnended(cfg, s, u, v);
    assert v == Remember(s, build, result);
  }

  lemma AcceptAllCode(cfg: Config, s: State, build: Build, outcome: Outcome, result: CoreResult)
    ensures Ended(cfg, s, AcceptAll(s, build, outcome, result))
  {
    var t := Remember(s, build, result);
    RememberCode(cfg, s, build, result);
    FinishCode(cfg, t, Some(outcome), result.lastPushAt);
    ThenEnded(cfg, s, t, AcceptAll(s, build, outcome, result));
  }

  lemma RefuseCode(cfg: Config, s: State, status: int, category: string, build: Build)
    ensures Ended(cfg, s, Refuse(cfg, s, status, category, build))
  {
    var state := if status == 404 then RouteUnsupported else RequestRejected;
    FailRetrying(cfg, s, state, category);
    FailQuietly(cfg, s, state, category, Some(build.fingerprint));
  }

  lemma AfterPublishCode(cfg: Config, s: State, k: Continuation, reply: PublishReply)
    requires k.AwaitPublish?
    ensures Ended(cfg, s, AfterPublish(cfg, s, k, reply))
  {
    match reply {
      case PublishAuth => AuthCode(cfg, s);
      case PublishConnection => FailRetrying(cfg, s, ConnectionFailed, "connection");
      case PublishServer(category) => FailRetrying(cfg, s, ServerFailed, category);
      case PublishRejected(status, category) => RefuseCode(cfg, s, status, category, k.build);
      case PublishInvalid => DistrustCode(cfg, s, "invalid_response", k.build);
      case PublishOk(result) =>
        var outcome := CompletedOutcome(k.build, result);
        if outcome.None? { DistrustCode(cfg, s, "inconsistent_result", k.build); }
        else if !outcome.value.fullyConverged { AcceptPartCode(cfg, s, outcome.value, result); }
        else { AcceptAllCode(cfg, s, k.build, outcome.value, result); }
    }
  }

  /* ---------------- every step keeps the invariant ---------------- */

  /** The state an attempt starts or resumes in: nothing else runs, and the lock is held. */
  ghost predicate InLoop(cfg: Config, s: State) {
    && s.lockHeld && s.running == [] && OwnedTimers(s) && Lifecycle(s) && Voided(cfg, s) && Backoff(cfg, s)
  }

  lemma LoopTurnSafe(cfg: Config, s: State, force: bool, inTask: bool, obs: Observation)
    requires InLoop(cfg, s)
    requires !s.stopped && !Summary(cfg, s).raised && Summary(cfg, s).strong ==> force || true in s.spawned
    ensures Safe(cfg, LoopTurn(cfg, s, force, inTask, obs))
  {
    if !s.stopped {
      var t := Log(s.(pending := false, pendingForce := false), AttemptStarted(force));
      Appended(s.log, AttemptStarted(force), cfg.retryDelays);
      assert OwnedTimers(t) && Backoff(cfg, t);
      BeginOnceCode(cfg, t, force, inTask, obs);
    }
  }

  lemma LoopTailSafe(cfg: Config, s: State, inTask: bool, obs: Observation)
    requires InLoop(cfg, s)
    requires !s.stopped && !Summary(cfg, s).raised ==> Carried(cfg, s)
    requires !s.stopped && Summary(cfg, s).endedRetrying && cfg.retryDelays != [] ==> s.retry.Some?
    ensures Safe(cfg, LoopTail(cfg, s, inTask, obs))
  {
    if s.pending {
      LoopTurnSafe(cfg, s, s.pendingForce, inTask, obs);
    }
  }

  lemma ReconcileSafe(cfg: Config, s: State, force: bool, inTask: bool, obs: Observation)
    requires OneFlight(s) && OwnedTimers(s) && Lifecycle(s) && Voided(cfg, s) && Backoff(cfg, s)
    requires !s.stopped && !Summary(cfg, s).raised ==>
               (Summary(cfg, s).strong ==> force || true in s.spawned || (s.lockHeld && s.pending && s.pendingForce))
    ensures Safe(cfg, Reconcile(cfg, s, force, inTask, obs))
  {
    if !s.stopped && !s.lockHeld {
      LoopTurnSafe(cfg, s.(lockHeld := true), force, inTask, obs);
    }
  }

  lemma StartedSafe(cfg: Config, s: State)
    requires Safe(cfg, s) && !s.started
    ensures
      var t := Started(s);
      && OneFlight(t) && OwnedTimers(t) && Lifecycle(t) && Voided(cfg, t) && Backoff(cfg, t)
      && (!Summary(cfg, t).raised ==>
            (Summary(cfg, t).strong ==> true in t.spawned || (t.lockHeld && t.pending && t.pendingForce)))
  {
    var t := Started(s);
    Appended(s.log, Requested(false), cfg.retryDelays);
    NoHandle(s.periodic);
    assert OwnedTimers(t) by {
      assert t.live == s.live.(periodic := {s.nextTimer});
    }
  }

  lemma NoHandle(handle: Option<nat>)
    ensures HandleSet(handle) == {} <==> handle.None?
  {
    assert handle.Some? ==> handle.value in HandleSet(handle);
  }

  lemma StartSafe(cfg: Config, s: State, obs: Observation)
    requires Safe(cfg, s)
    ensures Safe(cfg, StartStep(cfg, s, obs))
  {
    if !s.started {
      StartedSafe(cfg, s);
      ReconcileSafe(cfg, Started(s), false, false, obs);
    }
  }

  lemma StopSafe(cfg: Config, s: State)
    requires Safe(cfg, s)
    ensures Safe(cfg, StopStep(s))
  {
    if !s.stopped {
      if |s.running| == 1 { assert KeptRunning(s.running[1..]) == []; }
      var t := CancelTasks(DropOwners(s));
      Appended(t.log, Stopped, cfg.retryDelays);
    }
  }

  lemma RequestSafe(cfg: Config, s: State)
    requires Safe(cfg, s)
    ensures Safe(cfg, RequestStep(s))
  {
    if !s.stopped {
      CancelRetryCode(cfg, s);
      var t := CancelDebounce(CancelRetry(s));
      assert t == CancelRetry(s).(live := t.live, debounce := None);
      Appended(t.log, Requested(false), cfg.retryDelays);
    }
  }

  lemma DebounceSafe(cfg: Config, s: State, id: nat)
    requires Safe(cfg, s) && id in s.live.debounce
    ensures Safe(cfg, DebounceStep(s, id))
  {
    var t := DebounceStep(s, id);
    assert t == s.(live := t.live, debounce := None, spawned := s.spawned + [false]);
    assert true in s.spawned ==> true in t.spawned;
  }

  lemma RetrySafe(cfg: Config, s: State, id: nat)
    requires Safe(cfg, s) && id in s.live.retry
    ensures Safe(cfg, RetryStep(s, id))
  {
    var t := RetryStep(s, id);
    assert t == s.(live := t.live, retry := None, spawned := s.spawned + [true], log := s.log + [Requested(true)]);
    Appended(s.log, Requested(true), cfg.retryDelays);
    assert t.spawned[|s.spawned|];
  }

  lemma PeriodicSafe(cfg: Config, s: State, id: nat)
    requires Safe(cfg, s) && id in s.live.periodic
    ensures Safe(cfg, PeriodicStep(s))
  {
    var t := PeriodicStep(s);
    assert t == s.(spawned := s.spawned + [true], log := s.log + [Requested(true)]);
    Appended(s.log, Requested(true), cfg.retryDelays);
    assert t.spawned[|s.spawned|];
  }

  lemma SpawnedSafe(cfg: Config, s: State, index: nat, obs: Observation)
    requires Safe(cfg, s) && index < |s.spawned|
    ensures Safe(cfg, SpawnedStep(cfg, s, index, obs))
  {
    var t := s.(spawned := Without(s.spawned, index));
    assert !s.stopped;
    if true in s.spawned && !s.spawned[index] {
      var k :| 0 <= k < |s.spawned| && s.spawned[k];
      assert if k < index then t.spawned[k] else t.spawned[k - 1];
    }
    assert Lifecycle(t) && OneFlight(t) && OwnedTimers(t) && Voided(cfg, t) && Backoff(cfg, t);
    ReconcileSafe(cfg, t, s.spawned[index], true, obs);
  }

  lemma RaisedSafe(cfg: Config, s: State)
    requires InLoop(cfg, s)
    ensures Safe(cfg, Release(Log(s, AttemptRaised)))
  {
    Appended(s.log, AttemptRaised, cfg.retryDelays);
  }

  lemma WaitingSafe(cfg: Config, s: State, t: State)
    requires InLoop(cfg, s) && (!s.stopped && !Summary(cfg, s).raised ==> Carried(cfg, s))
    requires Waits(cfg, s, t)
    ensures Safe(cfg, t)
  {
  }

  lemma ResumeSafe(cfg: Config, s: State, t: State, inTask: bool, obs: Observation)
    requires InLoop(cfg, s) && (!s.stopped && !Summary(cfg, s).raised ==> Carried(cfg, s))
    requires Progressed(cfg, s, t) || t == Log(s, AttemptRaised)
    ensures Safe(cfg, Resume(cfg, s, t, inTask, obs))
  {
    if t == Log(s, AttemptRaised) {
      RaisedSafe(cfg, s);
    } else if Ended(cfg, s, t) {
      LoopTailSafe(cfg, t, inTask, obs);
    } else {
      WaitingSafe(cfg, s, t);
    }
  }

  /** How an attempt goes on after the inventory reply: it waits again, it raised, or it ended. */
  lemma InventoryResumes(cfg: Config, s: State, k: Continuation, reply: InventoryReply, obs: Observation)
    requires k.AwaitInventory?
    ensures
      var t := AfterInventory(cfg, s, k, reply);
      Resume(cfg, s, t, k.inTask, obs) ==
        if |t.running| > |s.running| then t
        else if reply.InventoryOk? && BuildOf(cfg, k.candidates, k.ambiguous, reply.devices).None? then Release(t)
        else LoopTail(cfg, t, k.inTask, obs)
  {
    hide AfterInventory, LoopTail, BuildOf, AttemptCode;
    AfterInventoryCode(cfg, s, k, reply);
  }

  /** After a publish reply the attempt has ended. */
  lemma PublishResumes(cfg: Config, s: State, k: Continuation, reply: PublishReply, obs: Observation)
    requires k.AwaitPublish?
    ensures
      var t := AfterPublish(cfg, s, k, reply);
      Resume(cfg, s, t, k.inTask, obs) == LoopTail(cfg, t, k.inTask, obs)
  {
    hide AfterPublish, LoopTail, AttemptCode;
    AfterPublishCode(cfg, s, k, reply);
  }

  /** An attempt that ends where it begins leaves what runs and what is pending alone. */
  lemma EndedKeeps(cfg: Config, s: State, t: State)
    requires Ended(cfg, s, t)
    ensures t.running == s.running && t.pending == s.pending
  {
    hide Summary;
    assert FrameOf(cfg, t).pending == FrameOf(cfg, s).pending;
  }

  lemma RepliesSafe(cfg: Config, s: State, index: nat)
    requires Safe(cfg, s) && index < |s.running|
    ensures
      var t := s.(running := Without(s.running, index));
      InLoop(cfg, t) && (!t.stopped && !Summary(cfg, t).raised ==> Carried(cfg, t))
  {
  }

  lemma StepSafe(cfg: Config, s: State, input: Input)
    requires Safe(cfg, s)
    ensures Safe(cfg, Step(cfg, s, input))
  {
    if Enabled(s, input) {
      match input {
        case Start(obs) => StartSafe(cfg, s, obs);
        case Stop => StopSafe(cfg, s);
        case RequestSync => RequestSafe(cfg, s);
        case DebounceFires(id) => DebounceSafe(cfg, s, id);
        case RetryFires(id) => RetrySafe(cfg, s, id);
        case PeriodicFires(id) => PeriodicSafe(cfg, s, id);
        case SpawnedRuns(index, obs) => SpawnedSafe(cfg, s, index, obs);
        case InventoryReplies(index, reply, obs) =>
          var k, t := s.running[index], s.(running := Without(s.running, index));
          RepliesSafe(cfg, s, index);
          AfterInventoryCode(cfg, t, k, reply);
          ResumeSafe(cfg, t, AfterInventory(cfg, t, k, reply), k.inTask, obs);
        case PublishReplies(index, reply, obs) =>
          var k, t := s.running[index], s.(running := Without(s.running, index));
          RepliesSafe(cfg, s, index);
          AfterPublishCode(cfg, t, k, reply);
          ResumeSafe(cfg, t, AfterPublish(cfg, t, k, reply), k.inTask, obs);
      }
    }
  }

  lemma {:induction false} RunSafe(cfg: Config, inputs: seq<Input>)
    ensures Safe(cfg, Run(cfg, inputs))
  {
    if inputs != [] {
      RunSafe(cfg, inputs[..|inputs| - 1]);
      StepSafe(cfg, Run(cfg, inputs[..|inputs| - 1]), inputs[|inputs| - 1]);
    }
  }
}
