/**
 What each reply leaves behind, told from the reply and not from what the publisher
 notes about it: whether a retry is pending, which snapshot is not sent again, and
 what is shown. Then the same over runs: when an attempt publishes.
 */
module SyncReplies {
  import opened Basics
  import opened EnrichmentTypes
  import opened Resolver
  import opened CoreRequest
  import opened SyncOutcome
  import opened SyncProtocol
  import opened SyncProperties
  import opened SyncCache

  /* ---------------- the rules ---------------- */

  /** Replies to a publish after which it is tried again: transport, server, too many requests, partial acceptance. */
  predicate TryAgain(build: Build, reply: PublishReply) {
    match reply
    case PublishAuth => false
    case PublishConnection => true
    case PublishServer(_) => true
    case PublishRejected(status, _) => status == 429
    case PublishInvalid => false
    case PublishOk(result) => SelfConsistent(result, |build.devices|) && !KeptAll(result, |build.devices|)
  }

  /** Replies that are final for the snapshot: any other refusal, and replies that cannot be believed. */
  predicate Final(build: Build, reply: PublishReply) {
    match reply
    case PublishRejected(status, _) => status != 429
    case PublishInvalid => true
    case PublishOk(result) => !SelfConsistent(result, |build.devices|)
    case _ => false
  }

  /** Core took the snapshot, in whole or in part. */
  predicate Taken(build: Build, reply: PublishReply) {
    reply.PublishOk? && SelfConsistent(reply.result, |build.devices|)
  }

  /** Replies of the inventory route after which the attempt is tried again. */
  predicate AskAgain(reply: InventoryReply) {
    match reply
    case InventoryAuth => false
    case InventoryConnection => true
    case InventoryServer(_) => true
    case InventoryRejected(status, _) => status == 429
    case InventoryInvalid => true
    case InventoryOk(_) => false
  }

  /** What is shown after a reply: the state, and the reason given, if any. */
  function PublishShown(build: Build, reply: PublishReply): (SyncState, Option<string>) {
    match reply
    case PublishAuth => (AuthenticationFailed, Some("authentication"))
    case PublishConnection => (ConnectionFailed, Some("connection"))
    case PublishServer(category) => (ServerFailed, Some(category))
    case PublishRejected(status, category) => (if status == 404 then RouteUnsupported else RequestRejected, Some(category))
    case PublishInvalid => (InvalidResponse, Some("invalid_response"))
    case PublishOk(result) =>
      if KeptAll(result, |build.devices|) then (Successful, None)
      else if SelfConsistent(result, |build.devices|) then (PartialAcceptance, Some("partial_acceptance"))
      else (InvalidResponse, Some("inconsistent_result"))
  }

  function InventoryShown(reply: InventoryReply): (SyncState, Option<string>)
    requires !reply.InventoryOk?
  {
    match reply
    case InventoryAuth => (AuthenticationFailed, Some("authentication"))
    case InventoryConnection => (InventoryUnavailable, Some("inventory_connection"))
    case InventoryServer(category) => (ServerFailed, Some(category))
    case InventoryRejected(_, category) => (RequestRejected, Some(category))
    case InventoryInvalid => (InvalidResponse, Some("inventory_invalid_response"))
  }

  /** What is shown while Core does not offer the contract. */
  function ContractShown(c: ContractState): (SyncState, Option<string>)
    requires c != Supported
  {
    match c
    case Unsupported => (ContractUnsupported, Some("unsupported"))
    case Missing => (ContractMissing, Some("missing"))
    case ContractGone => (ContractUnavailable, Some("unavailable"))
    case Malformed => (ContractMalformed, Some("malformed"))
  }

  ghost predicate Displays(d: Diagnostics, shown: (SyncState, Option<string>)) {
    d.state == shown.0 && d.failureReason == SafeReason(shown.1)
  }

  /* ---------------- one attempt ---------------- */

  /** How an attempt leaves the retry timer, the snapshot not to be sent, and the rest the rules speak of. */
  datatype Left = Left(
    retry: bool, terminal: Option<string>, reauth: bool, stopped: bool, pending: bool, pushed: Option<string>)

  function LeftBy(s: State): Left {
    Left(s.retry.Some?, s.terminalFingerprint, s.reauthStarted, s.stopped, s.pending, s.diagnostics.lastSuccessAt)
  }

  /** The time shown as the last success after a reply that Core took the snapshot: its own, if it has one. */
  function PushedAt(before: Option<string>, build: Build, reply: PublishReply): Option<string> {
    if Taken(build, reply) then reply.result.lastPushAt else before
  }

  /** A retry is pending after it has been asked for: one already is, or one can be scheduled. */
  predicate Armed(cfg: Config, s: State) { s.retry.Some? || (!s.stopped && cfg.retryDelays != []) }

  lemma SetLeaves(
    s: State, state: SyncState, outcome: Option<Outcome>, lastSuccessAt: Option<string>, reason: Option<string>)
    ensures
      var t := SetDiagnostics(s, state, outcome, lastSuccessAt, reason);
      && LeftBy(t) == LeftBy(s).(pushed := if lastSuccessAt.Some? then lastSuccessAt else s.diagnostics.lastSuccessAt)
      && Displays(t.diagnostics, (state, reason))
  {
    hide Show, SafeReason;
    ShowKeeps(s, NextDiagnostics(s.diagnostics, state, outcome, lastSuccessAt, reason));
  }

  lemma RetryLeaves(cfg: Config, s: State)
    ensures
      var t := EndRetrying(cfg, s);
      LeftBy(t) == LeftBy(s).(retry := Armed(cfg, s)) && t.diagnostics == s.diagnostics
  {
    ScheduleKeeps(cfg, s);
  }

  lemma QuietLeaves(s: State)
    ensures LeftBy(EndQuietly(s)) == LeftBy(s) && EndQuietly(s).diagnostics == s.diagnostics
  {
  }

  lemma CancelLeaves(s: State)
    ensures LeftBy(CancelRetry(s)) == LeftBy(s).(retry := false) && CancelRetry(s).diagnostics == s.diagnostics
  {
  }

  lemma FailRetryLeaves(cfg: Config, s: State, state: SyncState, reason: string)
    ensures
      var t := EndRetrying(cfg, Fail(s, state, reason));
      LeftBy(t) == LeftBy(s).(retry := Armed(cfg, s)) && Displays(t.diagnostics, (state, Some(reason)))
  {
    hide SetDiagnostics, EndRetrying, Displays;
    SetLeaves(s, state, None, None, Some(reason));
    RetryLeaves(cfg, Fail(s, state, reason));
  }

  lemma FailQuietLeaves(s: State, state: SyncState, reason: string, terminal: Option<string>)
    ensures
      var t := EndQuietly(CancelRetry(Fail(s, state, reason).(terminalFingerprint := terminal)));
      LeftBy(t) == LeftBy(s).(retry := false, terminal := terminal) && Displays(t.diagnostics, (state, Some(reason)))
    ensures
      var t := EndQuietly(CancelRetry(Fail(s, state, reason)));
      LeftBy(t) == LeftBy(s).(retry := false) && Displays(t.diagnostics, (state, Some(reason)))
  {
    hide SetDiagnostics, EndQuietly, CancelRetry, Displays;
    var u := Fail(s, state, reason);
    SetLeaves(s, state, None, None, Some(reason));
    CancelLeaves(u);
    CancelLeaves(u.(terminalFingerprint := terminal));
    QuietLeaves(CancelRetry(u));
    QuietLeaves(CancelRetry(u.(terminalFingerprint := terminal)));
  }

  lemma AuthLeaves(s: State)
    ensures
      var t := EndQuietly(Fail(CancelRetry(s).(reauthStarted := true), AuthenticationFailed, "authentication"));
      && LeftBy(t) == LeftBy(s).(retry := false, reauth := true)
      && Displays(t.diagnostics, (AuthenticationFailed, Some("authentication")))
  {
    hide SetDiagnostics, EndQuietly, CancelRetry, Displays;
    CancelLeaves(s);
    var u := CancelRetry(s).(reauthStarted := true);
    SetLeaves(u, AuthenticationFailed, None, None, Some("authentication"));
    QuietLeaves(Fail(u, AuthenticationFailed, "authentication"));
  }

  lemma DistrustLeaves(s: State, reason: string, build: Build)
    ensures
      var t := Distrust(s, reason, build);
      && LeftBy(t) == LeftBy(s).(retry := false, terminal := Some(build.fingerprint))
      && Displays(t.diagnostics, (InvalidResponse, Some(reason)))
  {
    hide SetDiagnostics, EndQuietly, CancelRetry, Displays, ForgetFull;
    ForgetLeaves(s);
    FailQuietLeaves(ForgetFull(s), InvalidResponse, reason, Some(build.fingerprint));
  }

  lemma PartLeaves(cfg: Config, s: State, outcome: Outcome, result: CoreResult)
    requires result.lastPushAt.Some?
    ensures
      var t := AcceptPart(cfg, s, outcome, result);
      && LeftBy(t) == LeftBy(s).(retry := Armed(cfg, s), terminal := None, pushed := result.lastPushAt)
      && Displays(t.diagnostics, (PartialAcceptance, Some("partial_acceptance")))
  {
    hide SetDiagnostics, EndRetrying, Displays;
    var u := ForgetFull(s.(terminalFingerprint := None));
    var reason := Some("partial_acceptance");
    SetLeaves(u, PartialAcceptance, Some(outcome), result.lastPushAt, reason);
    RetryLeaves(cfg, SetDiagnostics(u, PartialAcceptance, Some(outcome), result.lastPushAt, reason));
  }

  lemma AllLeaves(s: State, build: Build, outcome: Outcome, result: CoreResult)
    requires result.lastPushAt.Some?
    ensures
      var t := AcceptAll(s, build, outcome, result);
      && LeftBy(t) == LeftBy(s).(retry := false, terminal := None, pushed := result.lastPushAt)
      && Displays(t.diagnostics, (Successful, None))
  {
    hide SetDiagnostics, EndQuietly, CancelRetry, Displays;
    CancelLeaves(s.(terminalFingerprint := None, lastFingerprint := Some(build.fingerprint),
                    lastFullResult := Some(result), retryIndex := 0));
    var r := Remember(s, build, result);
    SetLeaves(r, Successful, Some(outcome), result.lastPushAt, None);
    QuietLeaves(SetDiagnostics(r, Successful, Some(outcome), result.lastPushAt, None));
  }

  lemma TimedIfConsistent(result: CoreResult, n: nat)
    requires SelfConsistent(result, n)
    ensures result.lastPushAt.Some?
  {
  }

  lemma ResultLeaves(cfg: Config, s: State, build: Build, result: CoreResult)
    requires Conserved(build)
    ensures
      var t := UseResult(cfg, s, build, result);
      var kept, consistent := KeptAll(result, |build.devices|), SelfConsistent(result, |build.devices|);
      && LeftBy(t) == LeftBy(s).(
           retry := consistent && !kept && Armed(cfg, s), terminal := if consistent then None else Some(build.fingerprint),
           pushed := if consistent then result.lastPushAt else s.diagnostics.lastSuccessAt)
      && Displays(t.diagnostics, PublishShown(build, PublishOk(result)))
  {
    hide Distrust, AcceptPart, AcceptAll, Displays, SelfConsistent, KeptAll, CompletedOutcome, Armed;
    OutcomeExactlySelfConsistent(build, result);
    OnlyConsistentIsKept(result, |build.devices|);
    if SelfConsistent(result, |build.devices|) { TimedIfConsistent(result, |build.devices|); }
    var outcome := CompletedOutcome(build, result);
    if outcome.None? {
      DistrustLeaves(s, "inconsistent_result", build);
    } else if !outcome.value.fullyConverged {
      PartLeaves(cfg, s, outcome.value, result);
    } else {
      AllLeaves(s, build, outcome.value, result);
    }
  }

  /** After a reply to a publish, before any further turn of the loop. */
  lemma PublishLeaves(cfg: Config, s: State, k: Continuation, reply: PublishReply)
    requires k.AwaitPublish? && Conserved(k.build)
    ensures
      var t := AfterPublish(cfg, s, k, reply);
      && (t.retry.Some? <==> TryAgain(k.build, reply) && Armed(cfg, s))
      && t.terminalFingerprint == (if Final(k.build, reply) then Some(k.build.fingerprint)
                                   else if Taken(k.build, reply) then None else s.terminalFingerprint)
      && t.reauthStarted == (s.reauthStarted || reply.PublishAuth?) && t.pending == s.pending && t.stopped == s.stopped
      && t.diagnostics.lastSuccessAt == PushedAt(s.diagnostics.lastSuccessAt, k.build, reply)
      && Displays(t.diagnostics, PublishShown(k.build, reply))
  {
    hide SetDiagnostics, EndRetrying, EndQuietly, CancelRetry, Displays, SelfConsistent, KeptAll, UseResult, Distrust, Armed;
    match reply
    case PublishAuth => AuthLeaves(s);
    case PublishConnection => FailRetryLeaves(cfg, s, ConnectionFailed, "connection");
    case PublishServer(category) => FailRetryLeaves(cfg, s, ServerFailed, category);
    case PublishRejected(status, category) =>
      var state := if status == 404 then RouteUnsupported else RequestRejected;
      FailRetryLeaves(cfg, s, state, category);
      FailQuietLeaves(s, state, category, Some(k.build.fingerprint));
    case PublishInvalid =>
      DistrustLeaves(s, "invalid_response", k.build);
    case PublishOk(result) =>
      Used(cfg, s, k, result);
      ResultLeaves(cfg, s, k.build, result);
      OnlyConsistentIsKept(result, |k.build.devices|);
  }

  lemma ForgetLeaves(s: State)
    ensures LeftBy(ForgetFull(s)) == LeftBy(s) && ForgetFull(s).diagnostics == s.diagnostics
  {
  }

  /** After an inventory reply that ends the attempt. */
  lemma InventoryLeaves(cfg: Config, s: State, k: Continuation, reply: InventoryReply)
    requires k.AwaitInventory? && !reply.InventoryOk?
    ensures
      var t := AfterInventory(cfg, s, k, reply);
      && (t.retry.Some? <==> AskAgain(reply) && Armed(cfg, s))
      && t.terminalFingerprint == s.terminalFingerprint
      && t.reauthStarted == (s.reauthStarted || reply.InventoryAuth?) && t.pending == s.pending && t.stopped == s.stopped
      && t.diagnostics.lastSuccessAt == s.diagnostics.lastSuccessAt
      && Displays(t.diagnostics, InventoryShown(reply))
  {
    hide SetDiagnostics, EndRetrying, EndQuietly, CancelRetry, Displays, BuildOf, Decide;
    match reply
    case InventoryAuth => AuthLeaves(s);
    case InventoryConnection => FailRetryLeaves(cfg, s, InventoryUnavailable, "inventory_connection");
    case InventoryServer(category) => FailRetryLeaves(cfg, s, ServerFailed, category);
    case InventoryRejected(_, category) =>
      FailRetryLeaves(cfg, s, RequestRejected, category);
      FailQuietLeaves(s, RequestRejected, category, None);
    case InventoryInvalid => FailRetryLeaves(cfg, s, InvalidResponse, "inventory_invalid_response");
    case _ =>
  }

  lemma RepeatLeaves(s: State, force: bool, build: Build, inTask: bool)
    ensures LeftBy(RepeatOrPublish(s, force, build, inTask)) == LeftBy(s)
  {
    hide SetDiagnostics, EndQuietly, Displays;
    SetLeaves(s, s.diagnostics.state, None, None, s.diagnostics.failureReason);
    QuietLeaves(SetDiagnostics(s, s.diagnostics.state, None, None, s.diagnostics.failureReason));
  }

  /** An inventory that arrives leaves a pending retry and the snapshot not to be sent as they are. */
  lemma InventoryOkLeaves(cfg: Config, s: State, k: Continuation, inv: seq<CoreDevice>)
    requires k.AwaitInventory? && BuildOf(cfg, k.candidates, k.ambiguous, inv).Some?
    ensures LeftBy(AfterInventory(cfg, s, k, InventoryOk(inv))) == LeftBy(s)
  {
    hide SetDiagnostics, EndQuietly, Displays, BuildOf, CompletedOutcome, RepeatOrPublish, AfterInventory, ForgetFull;
    InventoryDecides(cfg, s, k, inv);
    var build := BuildOf(cfg, k.candidates, k.ambiguous, inv).value;
    ForgetLeaves(s);
    RepeatLeaves(s, k.force, build, k.inTask);
    RepeatLeaves(ForgetFull(s), k.force, build, k.inTask);
    if s.lastFullResult.Some? {
      var outcome := CompletedOutcome(build, s.lastFullResult.value);
      SetLeaves(s, Successful, outcome, None, None);
      QuietLeaves(SetDiagnostics(s, Successful, outcome, None, None));
    }
  }

  lemma ContractTable(c: ContractState)
    requires c != Supported
    ensures ContractShown(c) == (ContractSyncState(c), Some(ContractReason(c)))
  {
  }

  /** Where an attempt ends at once: without the contract, or without the registries. */
  lemma BeginLeaves(cfg: Config, s: State, force: bool, inTask: bool, obs: Observation)
    ensures
      var t := BeginOnce(cfg, s, force, inTask, obs);
      && t.stopped == s.stopped && t.diagnostics.lastSuccessAt == s.diagnostics.lastSuccessAt
      && (obs.contract != Supported ==>
            && (t.retry.Some? <==> obs.contract == ContractGone && Armed(cfg, s)) && t.terminalFingerprint.None?
            && Displays(t.diagnostics, ContractShown(obs.contract)))
      && (obs.contract == Supported && obs.registry.Unavailable? ==>
            && (t.retry.Some? <==> Armed(cfg, s)) && t.terminalFingerprint == s.terminalFingerprint
            && Displays(t.diagnostics, (SourceUnavailable, Some("registry_unavailable"))))
      && (obs.contract == Supported && obs.registry.Complete? ==> LeftBy(t) == LeftBy(s) && t.diagnostics == s.diagnostics)
  {
    hide SetDiagnostics, EndRetrying, EndQuietly, CancelRetry, Displays, ContractSyncState, ContractReason, ContractShown, ForgetFull;
    if obs.contract != Supported {
      ContractTable(obs.contract);
      var u := ForgetFull(s).(terminalFingerprint := None);
      ForgetLeaves(s);
      FailRetryLeaves(cfg, u, ContractSyncState(obs.contract), ContractReason(obs.contract));
      FailQuietLeaves(u, ContractSyncState(obs.contract), ContractReason(obs.contract), None);
    } else if obs.registry.Unavailable? {
      FailRetryLeaves(cfg, s, SourceUnavailable, "registry_unavailable");
    }
  }
}
