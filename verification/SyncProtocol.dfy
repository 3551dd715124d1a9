/**
 The enrichment publisher as a step machine. A step is the code the source runs
 between two awaits; the environment chooses which step comes next and what the
 capability provider, the registries, the inventory route and the publish route
 answer. `log` records what a step did, in order.
 */
module SyncProtocol {
  import opened Basics
  import opened EnrichmentTypes
  import opened Resolver
  import opened CoreRequest
  import opened SyncOutcome

  datatype SyncState =
    | NeverAttempted | Successful | SourceUnavailable | InventoryUnavailable
    | ContractUnsupported | RouteUnsupported | ContractMissing | ContractUnavailable | ContractMalformed
    | AuthenticationFailed | ConnectionFailed | ServerFailed | RequestRejected | InvalidResponse | PartialAcceptance

  datatype ContractState = Supported | Unsupported | Missing | ContractGone | Malformed

  datatype InventoryReply =
    | InventoryAuth | InventoryConnection | InventoryServer(category: string)
    | InventoryRejected(status: int, category: string) | InventoryInvalid | InventoryOk(devices: seq<CoreDevice>)

  datatype PublishReply =
    | PublishAuth | PublishConnection | PublishServer(category: string)
    | PublishRejected(status: int, category: string) | PublishInvalid | PublishOk(result: CoreResult)

  datatype Diagnostics = Diagnostics(
    state: SyncState, matchState: MatchState, lastSuccessAt: Option<string>,
    submitted: Option<nat>, matched: Option<nat>, unmatched: Option<nat>, ambiguous: Option<nat>, stored: Option<nat>,
    failureReason: Option<string>)

  const FAILURE_REASONS := {
    "authentication", "bad_request", "conflict", "connection", "fingerprint_unavailable", "forbidden",
    "inconsistent_result", "inventory_connection", "inventory_invalid_response", "malformed", "missing",
    "not_found", "partial_acceptance", "rate_limited", "registry_unavailable", "request_rejected",
    "server_error", "unavailable", "unknown", "unsupported", "validation", "invalid_response"}

  /** The timers the scheduler will still fire. A handle is one of these numbers. */
  datatype Live = Live(debounce: set<nat>, retry: set<nat>, periodic: set<nat>)

  /** An attempt waiting on a reply. Only an attempt in a spawned task is cancelled by `Stop`. */
  datatype Continuation =
    | AwaitInventory(force: bool, candidates: seq<Candidate>, ambiguous: nat, inTask: bool)
    | AwaitPublish(build: Build, inTask: bool)

  datatype Event =
    | Requested(force: bool)
    | AttemptStarted(force: bool)
    | AttemptEnded(retries: bool)
    | AttemptRaised
    | Stopped
    | RetryScheduled(delay: nat)
    | Converged
    | Notified

  /** `digest` stands for the SHA-256 of the canonical JSON of the payload rows. */
  datatype Config = Config(digest: seq<Row> -> string, retryDelays: seq<nat>)

  datatype State = State(
    started: bool, stopped: bool, observed: bool,
    lockHeld: bool, running: seq<Continuation>, spawned: seq<bool>, pending: bool, pendingForce: bool,
    debounce: Option<nat>, retry: Option<nat>, periodic: Option<nat>, live: Live, nextTimer: nat,
    retryIndex: nat, reauthStarted: bool,
    lastFingerprint: Option<string>, lastFullResult: Option<CoreResult>, terminalFingerprint: Option<string>,
    diagnostics: Diagnostics, log: seq<Event>)

  const Fresh := State(
    false, false, true, false, [], [], false, false, None, None, None, Live({}, {}, {}), 0, 0, false, None, None, None,
    Diagnostics(NeverAttempted, Unknown, None, None, None, None, None, None, None), [])

  /** What an attempt reads synchronously when it begins. */
  datatype Observation = Observation(contract: ContractState, registry: Registry)

  /* ---------------- small actions ---------------- */

  function Log(s: State, e: Event): State { s.(log := s.log + [e]) }

  function Release(s: State): State { s.(lockHeld := false) }

  function CancelRetry(s: State): State {
    if s.retry.None? then s else s.(live := s.live.(retry := s.live.retry - {s.retry.value}), retry := None)
  }

  function ScheduleRetry(cfg: Config, s: State): State {
    if s.stopped || cfg.retryDelays == [] || s.retry.Some? then s
    else
      var index := Min(s.retryIndex, |cfg.retryDelays| - 1);
      Log(s.(retryIndex := Min(s.retryIndex + 1, |cfg.retryDelays| - 1),
             retry := Some(s.nextTimer),
             live := s.live.(retry := s.live.retry + {s.nextTimer}),
             nextTimer := s.nextTimer + 1),
          RetryScheduled(cfg.retryDelays[index]))
  }

  function Spawn(s: State, force: bool): State {
    if s.stopped then s else s.(spawned := s.spawned + [force])
  }

  function SafeReason(reason: Option<string>): Option<string> {
    if reason.None? || reason.value in FAILURE_REASONS then reason else Some("unknown")
  }

  function NextDiagnostics(
    previous: Diagnostics, state: SyncState, outcome: Option<Outcome>, lastSuccessAt: Option<string>,
    reason: Option<string>): Diagnostics
  {
    Diagnostics(
      state,
      if outcome.Some? then outcome.value.matchState else Unknown,
      if lastSuccessAt.Some? then lastSuccessAt else previous.lastSuccessAt,
      if outcome.Some? then Some(outcome.value.submitted) else None,
      if outcome.Some? then Some(outcome.value.matched) else None,
      if outcome.Some? then Some(outcome.value.unmatched) else None,
      if outcome.Some? then Some(outcome.value.ambiguous) else None,
      if outcome.Some? then Some(outcome.value.stored) else None,
      SafeReason(reason))
  }

  /** Installing diagnostics notifies the observer when anything but the timestamps changed. */
  function Show(s: State, next: Diagnostics): State {
    var s' := s.(diagnostics := next);
    if s.stopped || !s.observed || next.(lastSuccessAt := None) == s.diagnostics.(lastSuccessAt := None) then s'
    else Log(s', Notified)
  }

  function SetDiagnostics(
    s: State, state: SyncState, outcome: Option<Outcome>, lastSuccessAt: Option<string>, reason: Option<string>): State
  {
    Show(s, NextDiagnostics(s.diagnostics, state, outcome, lastSuccessAt, reason))
  }

  function Fail(s: State, state: SyncState, reason: string): State {
    SetDiagnostics(s, state, None, None, Some(reason))
  }

  function ForgetFull(s: State): State { s.(lastFingerprint := None, lastFullResult := None) }

  /** An attempt that ends by asking for a retry. */
  function EndRetrying(cfg: Config, s: State): State { Log(ScheduleRetry(cfg, s), AttemptEnded(true)) }

  /** An attempt that ends without one. */
  function EndQuietly(s: State): State { Log(s, AttemptEnded(false)) }

  /* ---------------- one attempt ---------------- */

  function ContractReason(c: ContractState): string {
    match c
    case Supported => "supported"
    case Unsupported => "unsupported"
    case Missing => "missing"
    case ContractGone => "unavailable"
    case Malformed => "malformed"
  }

  function ContractSyncState(c: ContractState): SyncState {
    match c
    case Supported => Successful
    case Unsupported => ContractUnsupported
    case Missing => ContractMissing
    case ContractGone => ContractUnavailable
    case Malformed => ContractMalformed
  }

  /** Core does not offer the contract: forget the cache, so that its return gets a fresh attempt. */
  function LoseContract(cfg: Config, s: State, contract: ContractState): State {
    var s1 := Fail(ForgetFull(s).(terminalFingerprint := None), ContractSyncState(contract), ContractReason(contract));
    if contract == ContractGone then EndRetrying(cfg, s1) else EndQuietly(CancelRetry(s1))
  }

  /** The part of an attempt before its first await. It either ends or waits for the inventory. */
  function BeginOnce(cfg: Config, s: State, force: bool, inTask: bool, obs: Observation): State {
    if obs.contract != Supported then LoseContract(cfg, s, obs.contract)
    else if obs.registry.Unavailable? then
      EndRetrying(cfg, Fail(s, SourceUnavailable, "registry_unavailable"))
    else
      s.(running := s.running + [AwaitInventory(force, obs.registry.candidates, obs.registry.ambiguous, inTask)])
  }

  /** The snapshot one attempt builds, or nothing where the payload builder raises. */
  function BuildOf(cfg: Config, cands: seq<Candidate>, ambiguous: nat, inv: seq<CoreDevice>): Option<Build> {
    var r := Resolved(cands, ambiguous, inv);
    var payload := RequestPayload(r.rows);
    if payload.Err? then None
    else Some(Build(r.rows, |cands| + ambiguous, r.unmatched, r.ambiguous, cfg.digest(payload.value)))
  }

  /** A finished snapshot: its counts are shown. */
  function Finish(s: State, outcome: Option<Outcome>, lastSuccessAt: Option<string>): State {
    EndQuietly(SetDiagnostics(s, Successful, outcome, lastSuccessAt, None))
  }

  /** No cached answer: repeat a terminal failure of the same snapshot, or publish. */
  function RepeatOrPublish(s: State, force: bool, build: Build, inTask: bool): State {
    if !force && s.terminalFingerprint == Some(build.fingerprint) then
      EndQuietly(SetDiagnostics(s, s.diagnostics.state, None, None, s.diagnostics.failureReason))
    else s.(running := s.running + [AwaitPublish(build, inTask)])
  }

  /** With a snapshot built: answer from the cache if it holds this snapshot, and otherwise go on. */
  function Decide(s: State, force: bool, build: Build, inTask: bool): State {
    if !force && s.lastFingerprint == Some(build.fingerprint) && s.lastFullResult.Some? then
      var outcome := CompletedOutcome(build, s.lastFullResult.value);
      if outcome.Some? then Finish(s, outcome, None)
      else RepeatOrPublish(ForgetFull(s), force, build, inTask)
    else RepeatOrPublish(s, force, build, inTask)
  }

  function AfterInventory(cfg: Config, s: State, k: Continuation, reply: InventoryReply): State
    requires k.AwaitInventory?
  {
    match reply
    case InventoryAuth =>
      EndQuietly(Fail(CancelRetry(s).(reauthStarted := true), AuthenticationFailed, "authentication"))
    case InventoryConnection => EndRetrying(cfg, Fail(s, InventoryUnavailable, "inventory_connection"))
    case InventoryServer(category) => EndRetrying(cfg, Fail(s, ServerFailed, category))
    case InventoryRejected(status, category) =>
      var s1 := Fail(s, RequestRejected, category);
      if status == 429 then EndRetrying(cfg, s1) else EndQuietly(CancelRetry(s1))
    case InventoryInvalid => EndRetrying(cfg, Fail(s, InvalidResponse, "inventory_invalid_response"))
    case InventoryOk(devices) =>
      var build := BuildOf(cfg, k.candidates, k.ambiguous, devices);
      if build.None? then Log(s, AttemptRaised) else Decide(s, k.force, build.value, k.inTask)
  }

  /** A reply that cannot be believed: what Core holds is unknown, and this snapshot is not retried. */
  function Distrust(s: State, reason: string, build: Build): State {
    EndQuietly(CancelRetry(
      Fail(ForgetFull(s), InvalidResponse, reason).(terminalFingerprint := Some(build.fingerprint))))
  }

  /** Core replaced its snapshot but did not keep every row. */
  function AcceptPart(cfg: Config, s: State, outcome: Outcome, result: CoreResult): State {
    EndRetrying(cfg, SetDiagnostics(
      ForgetFull(s.(terminalFingerprint := None)), PartialAcceptance, Some(outcome), result.lastPushAt,
      Some("partial_acceptance")))
  }

  function Remember(s: State, build: Build, result: CoreResult): State {
    Log(CancelRetry(s.(terminalFingerprint := None, lastFingerprint := Some(build.fingerprint),
                       lastFullResult := Some(result), retryIndex := 0)),
        Converged)
  }

  function AcceptAll(s: State, build: Build, outcome: Outcome, result: CoreResult): State {
    Finish(Remember(s, build, result), Some(outcome), result.lastPushAt)
  }

  /** Core refused the snapshot: too many requests are retried, anything else is final for this snapshot. */
  function Refuse(cfg: Config, s: State, status: int, category: string, build: Build): State {
    var s1 := Fail(s, if status == 404 then RouteUnsupported else RequestRejected, category);
    if status == 429 then EndRetrying(cfg, s1)
    else EndQuietly(CancelRetry(s1.(terminalFingerprint := Some(build.fingerprint))))
  }

  function UseResult(cfg: Config, s: State, build: Build, result: CoreResult): State {
    var outcome := CompletedOutcome(build, result);
    if outcome.None? then Distrust(s, "inconsistent_result", build)
    else if !outcome.value.fullyConverged then AcceptPart(cfg, s, outcome.value, result)
    else AcceptAll(s, build, outcome.value, result)
  }

  function AfterPublish(cfg: Config, s: State, k: Continuation, reply: PublishReply): State
    requires k.AwaitPublish?
  {
    match reply
    case PublishAuth =>
      EndQuietly(Fail(CancelRetry(s).(reauthStarted := true), AuthenticationFailed, "authentication"))
    case PublishConnection => EndRetrying(cfg, Fail(s, ConnectionFailed, "connection"))
    case PublishServer(category) => EndRetrying(cfg, Fail(s, ServerFailed, category))
    case PublishRejected(status, category) => Refuse(cfg, s, status, category, k.build)
    case PublishInvalid => Distrust(s, "invalid_response", k.build)
    case PublishOk(result) => UseResult(cfg, s, k.build, result)
  }

  /* ---------------- the single-flight loop ---------------- */

  /** One more turn of the reconcile loop, up to its first await or the release of the lock. */
  function LoopTurn(cfg: Config, s: State, force: bool, inTask: bool, obs: Observation): State {
    if s.stopped then Release(s)
    else
      var s1 := BeginOnce(cfg, Log(s.(pending := false, pendingForce := false), AttemptStarted(force)),
                          force, inTask, obs);
      if |s1.running| > |s.running| then s1 else Release(s1)
  }

  /** What follows an attempt that returned after an await. */
  function LoopTail(cfg: Config, s: State, inTask: bool, obs: Observation): State {
    if !s.pending then Release(s) else LoopTurn(cfg, s, s.pendingForce, inTask, obs)
  }

  function Reconcile(cfg: Config, s: State, force: bool, inTask: bool, obs: Observation): State {
    if s.stopped then s
    else if s.lockHeld then s.(pending := true, pendingForce := s.pendingForce || force)
    else LoopTurn(cfg, s.(lockHeld := true), force, inTask, obs)
  }

  /* ---------------- steps ---------------- */

  datatype Input =
    | Start(obs: Observation)
    | Stop
    | RequestSync
    | DebounceFires(id: nat)
    | RetryFires(id: nat)
    | PeriodicFires(id: nat)
    | SpawnedRuns(index: nat, obs: Observation)
    | InventoryReplies(index: nat, inventory: InventoryReply, obs: Observation)
    | PublishReplies(index: nat, publish: PublishReply, obs: Observation)

  /** A timer fires only while it is armed, and a reply comes only to what waits for it. */
  predicate Enabled(s: State, input: Input) {
    match input
    case Start(_) => true
    case Stop => true
    case RequestSync => true
    case DebounceFires(id) => id in s.live.debounce
    case RetryFires(id) => id in s.live.retry
    case PeriodicFires(id) => id in s.live.periodic
    case SpawnedRuns(index, _) => index < |s.spawned|
    case InventoryReplies(index, _, _) => index < |s.running| && s.running[index].AwaitInventory?
    case PublishReplies(index, _, _) => index < |s.running| && s.running[index].AwaitPublish?
  }

  function Without<T>(s: seq<T>, i: nat): seq<T>
    requires i < |s|
  {
    s[..i] + s[i + 1..]
  }

  function Started(s: State): State {
    s.(started := true, stopped := false, periodic := Some(s.nextTimer),
       live := s.live.(periodic := s.live.periodic + {s.nextTimer}), nextTimer := s.nextTimer + 1,
       log := s.log + [Requested(false)])
  }

  function StartStep(cfg: Config, s: State, obs: Observation): State {
    if s.started then s else Reconcile(cfg, Started(s), false, false, obs)
  }

  function HandleSet(handle: Option<nat>): set<nat> { if handle.Some? then {handle.value} else {} }

  function KeptRunning(running: seq<Continuation>): seq<Continuation> {
    if running == [] then []
    else if running[0].inTask then KeptRunning(running[1..])
    else [running[0]] + KeptRunning(running[1..])
  }

  /** Every timer the manager holds a handle on is cancelled, and the observer is dropped. */
  function DropOwners(s: State): State {
    s.(stopped := true,
       live := Live(s.live.debounce - HandleSet(s.debounce), s.live.retry - HandleSet(s.retry),
                    s.live.periodic - HandleSet(s.periodic)),
       debounce := None, retry := None, periodic := None, observed := false)
  }

  /** Cancelling a task in the middle of an attempt releases the lock it holds. */
  function CancelTasks(s: State): State {
    var kept := KeptRunning(s.running);
    s.(spawned := [], running := kept, lockHeld := s.lockHeld && |kept| == |s.running|)
  }

  function StopStep(s: State): State { if s.stopped then s else Log(CancelTasks(DropOwners(s)), Stopped) }

  function CancelDebounce(s: State): State {
    s.(live := s.live.(debounce := s.live.debounce - HandleSet(s.debounce)), debounce := None)
  }

  function RequestStep(s: State): State {
    if s.stopped then s
    else
      var s1 := CancelDebounce(CancelRetry(s));
      Log(s1.(debounce := Some(s1.nextTimer),
              live := s1.live.(debounce := s1.live.debounce + {s1.nextTimer}),
              nextTimer := s1.nextTimer + 1),
          Requested(false))
  }

  function DebounceStep(s: State, id: nat): State {
    Spawn(s.(live := s.live.(debounce := s.live.debounce - {id}), debounce := None), false)
  }

  function RetryStep(s: State, id: nat): State {
    Log(Spawn(s.(live := s.live.(retry := s.live.retry - {id}), retry := None), true), Requested(true))
  }

  function PeriodicStep(s: State): State { Log(Spawn(s, true), Requested(true)) }

  function SpawnedStep(cfg: Config, s: State, index: nat, obs: Observation): State
    requires index < |s.spawned|
  {
    Reconcile(cfg, s.(spawned := Without(s.spawned, index)), s.spawned[index], true, obs)
  }

  /** A raised attempt leaves the loop through its `async with`; a waiting one stays in it. */
  function Resume(cfg: Config, before: State, after: State, inTask: bool, obs: Observation): State {
    if |after.running| > |before.running| then after
    else if after.log != [] && after.log[|after.log| - 1] == AttemptRaised then Release(after)
    else LoopTail(cfg, after, inTask, obs)
  }

  function InventoryStep(cfg: Config, s: State, index: nat, reply: InventoryReply, obs: Observation): State
    requires index < |s.running| && s.running[index].AwaitInventory?
  {
    var k := s.running[index];
    var s1 := s.(running := Without(s.running, index));
    Resume(cfg, s1, AfterInventory(cfg, s1, k, reply), k.inTask, obs)
  }

  function PublishStep(cfg: Config, s: State, index: nat, reply: PublishReply, obs: Observation): State
    requires index < |s.running| && s.running[index].AwaitPublish?
  {
    var k := s.running[index];
    var s1 := s.(running := Without(s.running, index));
    Resume(cfg, s1, AfterPublish(cfg, s1, k, reply), k.inTask, obs)
  }

  function Step(cfg: Config, s: State, input: Input): State {
    if !Enabled(s, input) then s
    else
      match input
      case Start(obs) => StartStep(cfg, s, obs)
      case Stop => StopStep(s)
      case RequestSync => RequestStep(s)
      case DebounceFires(id) => DebounceStep(s, id)
      case RetryFires(id) => RetryStep(s, id)
      case PeriodicFires(_) => PeriodicStep(s)
      case SpawnedRuns(index, obs) => SpawnedStep(cfg, s, index, obs)
      case InventoryReplies(index, reply, obs) => InventoryStep(cfg, s, index, reply, obs)
      case PublishReplies(index, reply, obs) => PublishStep(cfg, s, index, reply, obs)
  }

  /** The state after any finite run. */
  function Run(cfg: Config, inputs: seq<Input>): State {
    if inputs == [] then Fresh else Step(cfg, Run(cfg, inputs[..|inputs| - 1]), inputs[|inputs| - 1])
  }
}
