/**
 What the fingerprint cache means over every run: a book of Core's replies and of what
 new attempts see of the contract always describes it. The book is written on from the
 inputs; from the state it reads which rows a reply is about and whether a new attempt
 begins.
 */
module SyncCache {
  import opened Basics
  import opened Sequences
  import opened EnrichmentTypes
  import opened Resolver
  import opened ResolverProperties
  import opened CoreRequest
  import opened SyncOutcome
  import opened SyncProtocol
  import opened SyncProperties

  /* ---------------- the book ---------------- */

  /**
   `trusted`: the rows of the last fully converged publish, unless a partial, inconsistent or malformed
   reply or a lost contract came since. `fulls`: how many publishes fully converged.
   */
  datatype Book = Book(trusted: Option<seq<Row>>, fulls: nat)

  /** The reply says Core now holds exactly the posted rows. */
  predicate Kept(build: Build, reply: PublishReply) {
    reply.PublishOk? && KeptAll(reply.result, |build.devices|)
  }

  /** The reply leaves open what Core holds: not a refusal, and not a full acceptance. */
  predicate Unclear(build: Build, reply: PublishReply) {
    reply.PublishInvalid? || (reply.PublishOk? && !KeptAll(reply.result, |build.devices|))
  }

  /** What a reply to a publish tells. */
  function Told(b: Book, build: Build, reply: PublishReply): Book {
    if Kept(build, reply) then Book(Some(build.devices), b.fulls + 1)
    else if Unclear(build, reply) then b.(trusted := None)
    else b
  }

  /** What a new attempt sees when it begins. */
  function Seen(b: Book, obs: Observation): Book { if obs.contract == Supported then b else b.(trusted := None) }

  /**
   The attempt that gets this inventory reply goes on to publish, or raises, so no new one begins. The cache and
   the terminal failure are read for that alone.
   */
  predicate GoesOn(cfg: Config, s: State, k: Continuation, reply: InventoryReply)
    requires k.AwaitInventory?
  {
    && reply.InventoryOk?
    && var build := BuildOf(cfg, k.candidates, k.ambiguous, reply.devices);
       || build.None?
       || (&& (k.force || s.terminalFingerprint != Some(build.value.fingerprint))
           && (k.force || s.lastFingerprint != Some(build.value.fingerprint) || s.lastFullResult.None?
               || CompletedOutcome(build.value, s.lastFullResult.value).None?))
  }

  /** The book after one more input; the lock, the pending request and a stop say whether a new attempt begins. */
  function Noted(cfg: Config, s: State, input: Input, b: Book): Book
    requires Enabled(s, input)
  {
    match input
    case Start(obs) => if s.started || s.lockHeld then b else Seen(b, obs)
    case SpawnedRuns(_, obs) => if s.stopped || s.lockHeld then b else Seen(b, obs)
    case InventoryReplies(index, reply, obs) =>
      if s.stopped || !s.pending || GoesOn(cfg, s, s.running[index], reply) then b else Seen(b, obs)
    case PublishReplies(index, reply, obs) =>
      var told := Told(b, s.running[index].build, reply);
      if s.stopped || !s.pending then told else Seen(told, obs)
    case _ => b
  }

  /** The book of a run. */
  function BookOf(cfg: Config, inputs: seq<Input>): Book {
    if inputs == [] then Book(None, 0)
    else
      var init, input := inputs[..|inputs| - 1], inputs[|inputs| - 1];
      var s, b := Run(cfg, init), BookOf(cfg, init);
      if Enabled(s, input) then Noted(cfg, s, input, b) else b
  }

  /** Full publishes as the log has them. */
  function Fulls(log: seq<Event>): nat {
    if log == [] then 0 else Fulls(log[..|log| - 1]) + if log[|log| - 1] == Converged then 1 else 0
  }

  lemma FullsLogged(log: seq<Event>, e: Event)
    ensures Fulls(log + [e]) == Fulls(log) + if e == Converged then 1 else 0
  {
    assert (log + [e])[..|log|] == log;
  }

  ghost predicate Injective(digest: seq<Row> -> string) {
    forall a, b :: digest(a) == digest(b) ==> a == b
  }

  /* ---------------- well-formed sources ---------------- */

  ghost predicate WellFormedObservation(obs: Observation) { WellFormedRegistry(obs.registry) }

  ghost predicate WellFormedInput(input: Input) {
    match input
    case Start(obs) => WellFormedObservation(obs)
    case SpawnedRuns(_, obs) => WellFormedObservation(obs)
    case InventoryReplies(_, reply, obs) =>
      WellFormedObservation(obs) && (reply.InventoryOk? ==> WellFormedInventory(reply.devices))
    case PublishReplies(_, _, obs) => WellFormedObservation(obs)
    case _ => true
  }

  /** A build whose rows go out as they are, with the fingerprint of exactly those rows. */
  ghost predicate GoodBuild(cfg: Config, build: Build) {
    RequestPayload(build.devices) == Ok(build.devices) && build.fingerprint == cfg.digest(build.devices) &&
    Conserved(build)
  }

  ghost predicate Ready(cfg: Config, k: Continuation) {
    match k
    case AwaitInventory(_, candidates, ambiguous, _) => WellFormedRegistry(Complete(candidates, ambiguous))
    case AwaitPublish(build, _) => GoodBuild(cfg, build)
  }

  /** Well-formed sources always build: neither the fingerprint nor the payload raises. */
  lemma BuildsWell(cfg: Config, cands: seq<Candidate>, ambiguous: nat, inv: seq<CoreDevice>)
    requires WellFormedRegistry(Complete(cands, ambiguous)) && WellFormedInventory(inv)
    ensures BuildOf(cfg, cands, ambiguous, inv).Some?
    ensures GoodBuild(cfg, BuildOf(cfg, cands, ambiguous, inv).value)
    ensures BuildOf(cfg, cands, ambiguous, inv).value.devices == Resolved(cands, ambiguous, inv).rows
  {
    BuiltSnapshotAccepted(cands, ambiguous, inv);
    Conservation(cands, ambiguous, inv);
  }

  /* ---------------- the invariant ---------------- */

  /** Counts are shown together and balance, or are absent together. */
  ghost predicate BalancedCounts(d: Diagnostics) {
    || (d.submitted.None? && d.matched.None? && d.unmatched.None? && d.ambiguous.None? && d.stored.None? &&
        d.matchState == Unknown)
    || (&& d.submitted.Some? && d.matched.Some? && d.unmatched.Some? && d.ambiguous.Some? && d.stored.Some?
        && d.submitted.value == d.matched.value + d.unmatched.value + d.ambiguous.value
        && d.stored.value == d.matched.value
        && d.matchState == MatchOf(d.submitted.value, d.ambiguous.value, d.stored.value)
        && (d.state == Successful || d.state == PartialAcceptance))
  }

  /** The cache is empty or is that of these rows. */
  ghost predicate CacheDescribes(cfg: Config, s: State, trusted: Option<seq<Row>>) {
    && (s.lastFingerprint.None? <==> s.lastFullResult.None?)
    && (s.lastFingerprint.None? <==> trusted.None?)
    && (trusted.Some? ==>
          s.lastFingerprint == Some(cfg.digest(trusted.value)) && KeptAll(s.lastFullResult.value, |trusted.value|))
  }

  /** The state fits the book. */
  ghost predicate Faithful(cfg: Config, s: State, b: Book) {
    && CacheDescribes(cfg, s, b.trusted)
    && Fulls(s.log) == b.fulls
    && BalancedCounts(s.diagnostics)
    && AttemptRaised !in s.log
    && forall k :: k in s.running ==> Ready(cfg, k)
  }

  /* ---------------- code that leaves the cache alone ---------------- */

  ghost predicate Aside(s: State, t: State) {
    && t.lastFingerprint == s.lastFingerprint && t.lastFullResult == s.lastFullResult
    && (AttemptRaised in t.log <==> AttemptRaised in s.log) && Fulls(t.log) == Fulls(s.log)
    && (BalancedCounts(s.diagnostics) ==> BalancedCounts(t.diagnostics))
    && t.running == s.running
  }

  lemma AsideFaithful(cfg: Config, s: State, t: State, b: Book)
    requires Aside(s, t)
    ensures Faithful(cfg, s, b) ==> Faithful(cfg, t, b)
  {
  }

  lemma LogAside(s: State, e: Event)
    requires !e.AttemptRaised? && !e.Converged?
    ensures Aside(s, Log(s, e))
  {
    FullsLogged(s.log, e);
  }

  lemma CancelRetryAside(s: State)
    ensures Aside(s, CancelRetry(s))
  {
    var t := CancelRetry(s);
    if s.retry.None? {} else { assert t == s.(live := t.live, retry := None); }
  }

  lemma EndQuietlyAside(s: State)
    ensures Aside(s, EndQuietly(CancelRetry(s))) && Aside(s, EndQuietly(s))
  {
    CancelRetryAside(s);
    LogAside(CancelRetry(s), AttemptEnded(false));
    LogAside(s, AttemptEnded(false));
  }

  lemma EndRetryingAside(cfg: Config, s: State)
    ensures Aside(s, EndRetrying(cfg, s))
  {
    var t := ScheduleRetry(cfg, s);
    if t != s {
      var delay := cfg.retryDelays[Min(s.retryIndex, |cfg.retryDelays| - 1)];
      LogAside(s, RetryScheduled(delay));
      assert t == s.(retryIndex := t.retryIndex, retry := t.retry, live := t.live, nextTimer := t.nextTimer,
                     log := s.log + [RetryScheduled(delay)]);
    }
    LogAside(t, AttemptEnded(true));
  }

  lemma ShowAside(s: State, next: Diagnostics)
    requires BalancedCounts(next)
    ensures Aside(s, Show(s, next))
  {
    var t := s.(diagnostics := next);
    LogAside(t, Notified);
    assert Show(s, next) == t || Show(s, next) == Log(t, Notified);
  }

  lemma SetDiagnosticsAside(
    s: State, state: SyncState, outcome: Option<Outcome>, lastSuccessAt: Option<string>, reason: Option<string>)
    requires outcome.Some? ==> Balanced(outcome.value) && (state == Successful || state == PartialAcceptance)
    ensures Aside(s, SetDiagnostics(s, state, outcome, lastSuccessAt, reason))
  {
    ShowAside(s, NextDiagnostics(s.diagnostics, state, outcome, lastSuccessAt, reason));
  }

  lemma FailAside(cfg: Config, s: State, state: SyncState, reason: string, terminal: Option<string>)
    ensures Aside(s, EndRetrying(cfg, Fail(s, state, reason)))
    ensures Aside(s, EndQuietly(CancelRetry(Fail(s, state, reason))))
    ensures Aside(s, EndQuietly(CancelRetry(Fail(s, state, reason).(terminalFingerprint := terminal))))
    ensures Aside(s, EndQuietly(Fail(CancelRetry(s).(reauthStarted := true), state, reason)))
  {
    SetDiagnosticsAside(s, state, None, None, Some(reason));
    EndRetryingAside(cfg, Fail(s, state, reason));
    EndQuietlyAside(Fail(s, state, reason));
    EndQuietlyAside(Fail(s, state, reason).(terminalFingerprint := terminal));
    CancelRetryAside(s);
    var t := CancelRetry(s).(reauthStarted := true);
    SetDiagnosticsAside(t, state, None, None, Some(reason));
    EndQuietlyAside(Fail(t, state, reason));
  }

  /* ---------------- code that changes it ---------------- */

  lemma ForgetFaithful(cfg: Config, s: State, b: Book)
    requires Faithful(cfg, s, b)
    ensures Faithful(cfg, ForgetFull(s), b.(trusted := None))
  {
  }

  lemma LoseContractFaithful(cfg: Config, s: State, contract: ContractState, b: Book)
    requires Faithful(cfg, s, b)
    ensures Faithful(cfg, LoseContract(cfg, s, contract), b.(trusted := None))
  {
    ForgetFaithful(cfg, s, b);
    var t := ForgetFull(s).(terminalFingerprint := None);
    FailAside(cfg, t, ContractSyncState(contract), ContractReason(contract), None);
    AsideFaithful(cfg, t, LoseContract(cfg, s, contract), b.(trusted := None));
  }

  lemma BeginOnceFaithful(cfg: Config, s: State, force: bool, inTask: bool, obs: Observation, b: Book)
    requires Faithful(cfg, s, b) && WellFormedObservation(obs)
    ensures Faithful(cfg, BeginOnce(cfg, s, force, inTask, obs), Seen(b, obs))
  {
    hide Faithful, LoseContract, Fail, EndRetrying;
    if obs.contract != Supported {
      LoseContractFaithful(cfg, s, obs.contract, b);
    } else if obs.registry.Unavailable? {
      FailAside(cfg, s, SourceUnavailable, "registry_unavailable", None);
      AsideFaithful(cfg, s, BeginOnce(cfg, s, force, inTask, obs), b);
    } else {
      WaitingFaithful(cfg, s, AwaitInventory(force, obs.registry.candidates, obs.registry.ambiguous, inTask), b);
    }
  }

  lemma WaitingFaithful(cfg: Config, s: State, k: Continuation, b: Book)
    requires Faithful(cfg, s, b) && Ready(cfg, k)
    ensures Faithful(cfg, s.(running := s.running + [k]), b)
  {
  }

  lemma LoopTurnFaithful(cfg: Config, s: State, force: bool, inTask: bool, obs: Observation, b: Book)
    requires Faithful(cfg, s, b) && WellFormedObservation(obs)
    ensures Faithful(cfg, LoopTurn(cfg, s, force, inTask, obs), if s.stopped then b else Seen(b, obs))
  {
    if !s.stopped {
      var s0 := s.(pending := false, pendingForce := false);
      LogAside(s0, AttemptStarted(force));
      BeginOnceFaithful(cfg, Log(s0, AttemptStarted(force)), force, inTask, obs, b);
    }
  }

  lemma ReconcileFaithful(cfg: Config, s: State, force: bool, inTask: bool, obs: Observation, b: Book)
    requires Faithful(cfg, s, b) && WellFormedObservation(obs)
    ensures Faithful(cfg, Reconcile(cfg, s, force, inTask, obs), if s.stopped || s.lockHeld then b else Seen(b, obs))
  {
    if !s.stopped && !s.lockHeld {
      LoopTurnFaithful(cfg, s.(lockHeld := true), force, inTask, obs, b);
    }
  }

  lemma FinishFaithful(cfg: Config, s: State, outcome: Outcome, lastSuccessAt: Option<string>, b: Book)
    requires Faithful(cfg, s, b) && Balanced(outcome)
    ensures Faithful(cfg, Finish(s, Some(outcome), lastSuccessAt), b)
  {
    var t := SetDiagnostics(s, Successful, Some(outcome), lastSuccessAt, None);
    SetDiagnosticsAside(s, Successful, Some(outcome), lastSuccessAt, None);
    AsideFaithful(cfg, s, t, b);
    EndQuietlyAside(t);
    AsideFaithful(cfg, t, EndQuietly(t), b);
  }

  lemma RepeatOrPublishFaithful(cfg: Config, s: State, force: bool, build: Build, inTask: bool, b: Book)
    requires Faithful(cfg, s, b) && GoodBuild(cfg, build)
    ensures Faithful(cfg, RepeatOrPublish(s, force, build, inTask), b)
  {
    if !force && s.terminalFingerprint == Some(build.fingerprint) {
      var t := SetDiagnostics(s, s.diagnostics.state, None, None, s.diagnostics.failureReason);
      SetDiagnosticsAside(s, s.diagnostics.state, None, None, s.diagnostics.failureReason);
      EndQuietlyAside(t);
      AsideFaithful(cfg, s, EndQuietly(t), b);
    }
  }

  /** With an injective digest a cached answer is for the very rows just built, and cannot raise. */
  lemma CacheHit(cfg: Config, s: State, build: Build, b: Book)
    requires Injective(cfg.digest) && Faithful(cfg, s, b) && GoodBuild(cfg, build)
    requires s.lastFingerprint == Some(build.fingerprint)
    ensures b.trusted == Some(build.devices)
    ensures CompletedOutcome(build, s.lastFullResult.value).Some?
    ensures
      var o := CompletedOutcome(build, s.lastFullResult.value).value;
      Balanced(o) && o.stored == |build.devices|
  {
    OutcomeExactlySelfConsistent(build, s.lastFullResult.value);
  }

  lemma DecideFaithful(cfg: Config, s: State, force: bool, build: Build, inTask: bool, b: Book)
    requires Injective(cfg.digest) && Faithful(cfg, s, b) && GoodBuild(cfg, build)
    ensures Faithful(cfg, Decide(s, force, build, inTask), b)
  {
    if !force && s.lastFingerprint == Some(build.fingerprint) && s.lastFullResult.Some? {
      CacheHit(cfg, s, build, b);
      FinishFaithful(cfg, s, CompletedOutcome(build, s.lastFullResult.value).value, None, b);
    } else {
      RepeatOrPublishFaithful(cfg, s, force, build, inTask, b);
    }
  }

  lemma AfterInventoryFaithful(cfg: Config, s: State, k: Continuation, reply: InventoryReply, b: Book)
    requires Injective(cfg.digest) && Faithful(cfg, s, b) && k.AwaitInventory? && Ready(cfg, k)
    requires reply.InventoryOk? ==> WellFormedInventory(reply.devices)
    ensures Faithful(cfg, AfterInventory(cfg, s, k, reply), b)
  {
    var t := AfterInventory(cfg, s, k, reply);
    match reply {
      case InventoryAuth =>
        FailAside(cfg, s, AuthenticationFailed, "authentication", None);
        AsideFaithful(cfg, s, t, b);
      case InventoryConnection =>
        FailAside(cfg, s, InventoryUnavailable, "inventory_connection", None);
        AsideFaithful(cfg, s, t, b);
      case InventoryServer(category) =>
        FailAside(cfg, s, ServerFailed, category, None);
        AsideFaithful(cfg, s, t, b);
      case InventoryRejected(_, category) =>
        FailAside(cfg, s, RequestRejected, category, None);
        AsideFaithful(cfg, s, t, b);
      case InventoryInvalid =>
        FailAside(cfg, s, InvalidResponse, "inventory_invalid_response", None);
        AsideFaithful(cfg, s, t, b);
      case InventoryOk(devices) =>
        BuildsWell(cfg, k.candidates, k.ambiguous, devices);
        DecideFaithful(cfg, s, k.force, BuildOf(cfg, k.candidates, k.ambiguous, devices).value, k.inTask, b);
    }
  }

  lemma DistrustFaithful(cfg: Config, s: State, reason: string, build: Build, b: Book)
    requires Faithful(cfg, s, b)
    ensures Faithful(cfg, Distrust(s, reason, build), b.(trusted := None))
  {
    ForgetFaithful(cfg, s, b);
    FailAside(cfg, ForgetFull(s), InvalidResponse, reason, Some(build.fingerprint));
    AsideFaithful(cfg, ForgetFull(s), Distrust(s, reason, build), b.(trusted := None));
  }

  lemma AcceptPartFaithful(cfg: Config, s: State, outcome: Outcome, result: CoreResult, b: Book)
    requires Faithful(cfg, s, b) && Balanced(outcome)
    ensures Faithful(cfg, AcceptPart(cfg, s, outcome, result), b.(trusted := None))
  {
    var t := ForgetFull(s.(terminalFingerprint := None));
    ForgetFaithful(cfg, s.(terminalFingerprint := None), b);
    var reason := Some("partial_acceptance");
    SetDiagnosticsAside(t, PartialAcceptance, Some(outcome), result.lastPushAt, reason);
    var u := SetDiagnostics(t, PartialAcceptance, Some(outcome), result.lastPushAt, reason);
    AsideFaithful(cfg, t, u, b.(trusted := None));
    EndRetryingAside(cfg, u);
    AsideFaithful(cfg, u, EndRetrying(cfg, u), b.(trusted := None));
  }

  lemma RememberFaithful(cfg: Config, s: State, build: Build, result: CoreResult, b: Book)
    requires Faithful(cfg, s, b) && GoodBuild(cfg, build) && KeptAll(result, |build.devices|)
    ensures Faithful(cfg, Remember(s, build, result), Book(Some(build.devices), b.fulls + 1))
  {
    var t := s.(terminalFingerprint := None, lastFingerprint := Some(build.fingerprint),
                lastFullResult := Some(result), retryIndex := 0);
    CancelRetryAside(t);
    FullsLogged(CancelRetry(t).log, Converged);
  }

  lemma AcceptAllFaithful(cfg: Config, s: State, build: Build, outcome: Outcome, result: CoreResult, b: Book)
    requires Faithful(cfg, s, b) && GoodBuild(cfg, build) && Balanced(outcome) && KeptAll(result, |build.devices|)
    ensures Faithful(cfg, AcceptAll(s, build, outcome, result), Book(Some(build.devices), b.fulls + 1))
  {
    RememberFaithful(cfg, s, build, result, b);
    FinishFaithful(
      cfg, Remember(s, build, result), outcome, result.lastPushAt, Book(Some(build.devices), b.fulls + 1));
  }

  lemma AfterPublishFaithful(cfg: Config, s: State, k: Continuation, reply: PublishReply, b: Book)
    requires Faithful(cfg, s, b) && k.AwaitPublish? && Ready(cfg, k)
    ensures Faithful(cfg, AfterPublish(cfg, s, k, reply), Told(b, k.build, reply))
  {
    hide Faithful, EndQuietly, EndRetrying, Distrust, UseResult, CancelRetry, BalancedCounts, Fail, GoodBuild, KeptAll;
    var t := AfterPublish(cfg, s, k, reply);
    match reply {
      case PublishAuth =>
        FailAside(cfg, s, AuthenticationFailed, "authentication", None);
        AsideFaithful(cfg, s, t, b);
      case PublishConnection =>
        FailAside(cfg, s, ConnectionFailed, "connection", None);
        AsideFaithful(cfg, s, t, b);
      case PublishServer(category) =>
        FailAside(cfg, s, ServerFailed, category, None);
        AsideFaithful(cfg, s, t, b);
      case PublishRejected(status, category) =>
        FailAside(cfg, s, if status == 404 then RouteUnsupported else RequestRejected, category,
                  Some(k.build.fingerprint));
        AsideFaithful(cfg, s, t, b);
      case PublishInvalid => DistrustFaithful(cfg, s, "invalid_response", k.build, b);
      case PublishOk(result) =>
        Used(cfg, s, k, result);
        UseResultFaithful(cfg, s, k.build, result, b);
    }
  }

  lemma Used(cfg: Config, s: State, k: Continuation, result: CoreResult)
    requires k.AwaitPublish?
    ensures AfterPublish(cfg, s, k, PublishOk(result)) == UseResult(cfg, s, k.build, result)
  {
    hide UseResult, Refuse, Distrust, Fail, EndQuietly, EndRetrying, CancelRetry;
  }

  lemma UseResultFaithful(cfg: Config, s: State, build: Build, result: CoreResult, b: Book)
    requires Faithful(cfg, s, b) && GoodBuild(cfg, build)
    ensures Faithful(cfg, UseResult(cfg, s, build, result), Told(b, build, PublishOk(result)))
  {
    hide Faithful, Distrust, AcceptPart, AcceptAll, CompletedOutcome, KeptAll, SelfConsistent, Balanced, Told;
    GoodBuildConserved(cfg, build);
    hide GoodBuild;
    ToldOk(b, build, result);
    OutcomeExactlySelfConsistent(build, result);
    OnlyConsistentIsKept(result, |build.devices|);
    var outcome := CompletedOutcome(build, result);
    if outcome.None? {
      DistrustFaithful(cfg, s, "inconsistent_result", build, b);
    } else if outcome.value.fullyConverged {
      AcceptAllFaithful(cfg, s, build, outcome.value, result, b);
    } else {
      AcceptPartFaithful(cfg, s, outcome.value, result, b);
    }
  }

  lemma GoodBuildConserved(cfg: Config, build: Build)
    requires GoodBuild(cfg, build)
    ensures Conserved(build)
  {
  }

  lemma ToldOk(b: Book, build: Build, result: CoreResult)
    ensures Told(b, build, PublishOk(result)) ==
            if KeptAll(result, |build.devices|) then Book(Some(build.devices), b.fulls + 1) else b.(trusted := None)
  {
    hide KeptAll;
  }

  lemma OnlyConsistentIsKept(result: CoreResult, n: nat)
    ensures KeptAll(result, n) ==> SelfConsistent(result, n)
  {
  }

  /* ---------------- every step ---------------- */

  lemma RemovedReady(cfg: Config, s: State, index: nat, b: Book)
    requires Faithful(cfg, s, b) && index < |s.running|
    ensures Ready(cfg, s.running[index]) && Faithful(cfg, s.(running := Without(s.running, index)), b)
  {
    assert s.running[index] in s.running;
    forall k | k in Without(s.running, index) ensures Ready(cfg, k) { assert k in s.running; }
  }

  lemma {:induction false} KeptRunningReady(cfg: Config, running: seq<Continuation>)
    requires forall k :: k in running ==> Ready(cfg, k)
    ensures forall k :: k in KeptRunning(running) ==> Ready(cfg, k)
  {
    if running != [] {
      assert running[0] in running;
      KeptRunningReady(cfg, running[1..]);
    }
  }

  lemma ResumeFaithful(cfg: Config, s: State, t: State, inTask: bool, obs: Observation, b: Book)
    requires Faithful(cfg, t, b) && WellFormedObservation(obs)
    ensures Faithful(cfg, Resume(cfg, s, t, inTask, obs),
                     if |t.running| > |s.running| || !t.pending || t.stopped then b else Seen(b, obs))
  {
    assert t.log != [] ==> t.log[|t.log| - 1] in t.log;
    if |t.running| <= |s.running| && t.pending {
      LoopTurnFaithful(cfg, t, t.pendingForce, inTask, obs, b);
    }
  }

  /** The code after an inventory reply waits for a publish, or raises, exactly where the attempt goes on. */
  lemma GoesOnWaits(cfg: Config, s: State, k: Continuation, reply: InventoryReply)
    requires k.AwaitInventory?
    requires reply.InventoryOk? ==> BuildOf(cfg, k.candidates, k.ambiguous, reply.devices).Some?
    ensures
      var t := AfterInventory(cfg, s, k, reply);
      (|t.running| > |s.running| <==> GoesOn(cfg, s, k, reply)) && t.pending == s.pending && t.stopped == s.stopped
  {
    hide BuildOf, Fail, EndRetrying, EndQuietly, CancelRetry, Finish, AfterInventory, AttemptCode, CompletedOutcome;
    AfterInventoryCode(cfg, s, k, reply);
    var t := AfterInventory(cfg, s, k, reply);
    KeepsPending(cfg, s, t);
    if reply.InventoryOk? {
      InventoryDecides(cfg, s, k, reply.devices);
      DecideWaits(cfg, s, k.force, BuildOf(cfg, k.candidates, k.ambiguous, reply.devices).value, k.inTask);
    } else {
      InventoryFails(cfg, s, k, reply);
    }
  }

  lemma KeepsPending(cfg: Config, s: State, t: State)
    requires AttemptCode(cfg, s, t)
    ensures t.pending == s.pending && t.stopped == s.stopped
  {
    assert FrameOf(cfg, t).pending == FrameOf(cfg, s).pending && FrameOf(cfg, t).stopped == FrameOf(cfg, s).stopped;
  }

  lemma InventoryDecides(cfg: Config, s: State, k: Continuation, inv: seq<CoreDevice>)
    requires k.AwaitInventory? && BuildOf(cfg, k.candidates, k.ambiguous, inv).Some?
    ensures AfterInventory(cfg, s, k, InventoryOk(inv)) ==
            Decide(s, k.force, BuildOf(cfg, k.candidates, k.ambiguous, inv).value, k.inTask)
  {
    hide BuildOf, Decide;
  }

  lemma InventoryFails(cfg: Config, s: State, k: Continuation, reply: InventoryReply)
    requires k.AwaitInventory? && !reply.InventoryOk?
    ensures AfterInventory(cfg, s, k, reply).running == s.running
  {
    hide Fail, EndRetrying, EndQuietly, CancelRetry, BalancedCounts;
    match reply
    case InventoryAuth => FailAside(cfg, s, AuthenticationFailed, "authentication", None);
    case InventoryConnection => FailAside(cfg, s, InventoryUnavailable, "inventory_connection", None);
    case InventoryServer(category) => FailAside(cfg, s, ServerFailed, category, None);
    case InventoryRejected(_, category) => FailAside(cfg, s, RequestRejected, category, None);
    case InventoryInvalid => FailAside(cfg, s, InvalidResponse, "inventory_invalid_response", None);
    case _ =>
  }

  lemma RepeatWaits(s: State, force: bool, build: Build, inTask: bool)
    ensures |RepeatOrPublish(s, force, build, inTask).running| > |s.running| <==>
              force || s.terminalFingerprint != Some(build.fingerprint)
  {
    hide SetDiagnostics, EndQuietly;
    var t := SetDiagnostics(s, s.diagnostics.state, None, None, s.diagnostics.failureReason);
    SetDiagnosticsAside(s, s.diagnostics.state, None, None, s.diagnostics.failureReason);
    EndQuietlyAside(t);
  }

  lemma DecideWaits(cfg: Config, s: State, force: bool, build: Build, inTask: bool)
    ensures
      |Decide(s, force, build, inTask).running| > |s.running| <==>
        && (force || s.terminalFingerprint != Some(build.fingerprint))
        && (force || s.lastFingerprint != Some(build.fingerprint) || s.lastFullResult.None?
            || CompletedOutcome(build, s.lastFullResult.value).None?)
  {
    hide CompletedOutcome, Finish, RepeatOrPublish;
    RepeatWaits(s, force, build, inTask);
    RepeatWaits(ForgetFull(s), force, build, inTask);
    if s.lastFullResult.Some? { FinishCode(cfg, s, CompletedOutcome(build, s.lastFullResult.value), None); }
  }

  lemma InventoryStepFaithful(cfg: Config, s: State, index: nat, reply: InventoryReply, obs: Observation, b: Book)
    requires Injective(cfg.digest) && Faithful(cfg, s, b) && WellFormedInput(InventoryReplies(index, reply, obs))
    requires index < |s.running| && s.running[index].AwaitInventory?
    ensures Faithful(cfg, InventoryStep(cfg, s, index, reply, obs), Noted(cfg, s, InventoryReplies(index, reply, obs), b))
  {
    hide Faithful, AfterInventory, Resume, BuildOf, GoesOn;
    RemovedReady(cfg, s, index, b);
    var k, t := s.running[index], s.(running := Without(s.running, index));
    if reply.InventoryOk? { BuildsWell(cfg, k.candidates, k.ambiguous, reply.devices); }
    AfterInventoryFaithful(cfg, t, k, reply, b);
    ResumeFaithful(cfg, t, AfterInventory(cfg, t, k, reply), k.inTask, obs, b);
    GoesOnWaits(cfg, t, k, reply);
    SameGoesOn(cfg, s, t, k, reply);
  }

  lemma SameGoesOn(cfg: Config, s: State, t: State, k: Continuation, reply: InventoryReply)
    requires k.AwaitInventory? && t == s.(running := t.running)
    ensures GoesOn(cfg, t, k, reply) == GoesOn(cfg, s, k, reply)
  {
    hide BuildOf, CompletedOutcome;
  }

  lemma PublishStepFaithful(cfg: Config, s: State, index: nat, reply: PublishReply, obs: Observation, b: Book)
    requires Faithful(cfg, s, b) && WellFormedObservation(obs)
    requires index < |s.running| && s.running[index].AwaitPublish?
    ensures Faithful(cfg, PublishStep(cfg, s, index, reply, obs), Noted(cfg, s, PublishReplies(index, reply, obs), b))
  {
    hide Faithful, AfterPublish, Resume, AttemptCode, Told;
    RemovedReady(cfg, s, index, b);
    var k, t := s.running[index], s.(running := Without(s.running, index));
    AfterPublishFaithful(cfg, t, k, reply, b);
    ResumeFaithful(cfg, t, AfterPublish(cfg, t, k, reply), k.inTask, obs, Told(b, k.build, reply));
    AfterPublishCode(cfg, t, k, reply);
    KeepsPending(cfg, t, AfterPublish(cfg, t, k, reply));
  }

  /** Every step leaves the state fitting the book, as its input has it written on. */
  lemma StepFaithful(cfg: Config, s: State, input: Input, b: Book)
    requires Injective(cfg.digest) && Faithful(cfg, s, b) && WellFormedInput(input)
    ensures Faithful(cfg, Step(cfg, s, input), if Enabled(s, input) then Noted(cfg, s, input, b) else b)
  {
    if Enabled(s, input) {
      match input {
        case Start(obs) =>
          if !s.started {
            LogAside(s, Requested(false));
            ReconcileFaithful(cfg, Started(s), false, false, obs, b);
          }
        case Stop =>
          KeptRunningReady(cfg, s.running);
          LogAside(CancelTasks(DropOwners(s)), Stopped);
        case RequestSync =>
          CancelRetryAside(s);
          LogAside(CancelDebounce(CancelRetry(s)), Requested(false));
        case DebounceFires(_) =>
        case RetryFires(_) => LogAside(s, Requested(true));
        case PeriodicFires(_) => LogAside(s, Requested(true));
        case SpawnedRuns(index, obs) =>
          ReconcileFaithful(cfg, s.(spawned := Without(s.spawned, index)), s.spawned[index], true, obs, b);
        case InventoryReplies(index, reply, obs) => InventoryStepFaithful(cfg, s, index, reply, obs, b);
        case PublishReplies(index, reply, obs) => PublishStepFaithful(cfg, s, index, reply, obs, b);
      }
    }
  }

  lemma Idle(cfg: Config, s: State, input: Input)
    requires !Enabled(s, input)
    ensures Step(cfg, s, input) == s
  {
  }

  /* ---------------- over whole runs ---------------- */

  ghost predicate WellFormedRun(inputs: seq<Input>) { forall i :: 0 <= i < |inputs| ==> WellFormedInput(inputs[i]) }

  lemma {:induction false} RunFaithful(cfg: Config, inputs: seq<Input>)
    requires Injective(cfg.digest) && WellFormedRun(inputs)
    ensures Faithful(cfg, Run(cfg, inputs), BookOf(cfg, inputs))
  {
    hide Step, Noted, WellFormedInput;
    if inputs == [] {
    } else {
      var init := inputs[..|inputs| - 1];
      RunFaithful(cfg, init);
      StepFaithful(cfg, Run(cfg, init), inputs[|inputs| - 1], BookOf(cfg, init));
    }
  }

  /** Well-formed registries and parsed inventories never make an attempt raise. */
  lemma NeverRaises(cfg: Config, inputs: seq<Input>)
    requires Injective(cfg.digest) && WellFormedRun(inputs)
    ensures AttemptRaised !in Run(cfg, inputs).log
  {
    RunFaithful(cfg, inputs);
  }

  /**
   Fingerprint and result are set and cleared together, and are those of the last publish Core fully
   kept, exactly when nothing in the replies or the contract has cast doubt on it since. The log, whose
   retries count from its full publishes, has exactly as many of these as Core's replies.
   */
  lemma CacheIsLastFullPublish(cfg: Config, inputs: seq<Input>)
    requires Injective(cfg.digest) && WellFormedRun(inputs)
    ensures CacheDescribes(cfg, Run(cfg, inputs), BookOf(cfg, inputs).trusted)
    ensures Fulls(Run(cfg, inputs).log) == BookOf(cfg, inputs).fulls
  {
    hide Run, BookOf;
    RunFaithful(cfg, inputs);
  }

  lemma CountsBalance(cfg: Config, inputs: seq<Input>)
    requires Injective(cfg.digest) && WellFormedRun(inputs)
    ensures BalancedCounts(Run(cfg, inputs).diagnostics)
  {
    RunFaithful(cfg, inputs);
  }
}
