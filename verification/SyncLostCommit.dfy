/**
 Why a failed publish must leave Core alone. A run from the start, with Core beside
 it: Core stores a publish whose reply is lost, the registry goes back, and the
 cache then answers with a success that is no longer true.
 */
module SyncLostCommit {
  import opened Basics
  import opened Sequences
  import opened EnrichmentTypes
  import opened Resolver
  import opened ResolverProperties
  import opened CoreRequest
  import opened SyncOutcome
  import opened SyncProtocol
  import opened SyncProperties
  import opened SyncCache
  import opened SyncTruth

  function Sees(cands: seq<Candidate>): Observation { Observation(Supported, Complete(cands, 0)) }

  function Rows(cands: seq<Candidate>, inv: seq<CoreDevice>): seq<Row> { Resolved(cands, 0, inv).rows }

  /** Core kept so many rows, all there were. */
  function KeptResult(n: nat): CoreResult { CoreResult(n, n, 0, 0, n, Some("2026-01-01T00:00:00Z")) }

  /**
   The registry shows `a` and Core keeps it. A change is noticed, and an attempt sees `b`. A second change,
   back to `a`, is noticed while it runs and coalesced; the reply to its publish is lost, and the loop turns.
   */
  function LostCommit(a: seq<Candidate>, b: seq<Candidate>, inv: seq<CoreDevice>): seq<Input> {
    [Start(Sees(a)), InventoryReplies(0, InventoryOk(inv), Sees(a)),
     PublishReplies(0, PublishOk(KeptResult(|Rows(a, inv)|)), Sees(a)),
     RequestSync, DebounceFires(1), SpawnedRuns(0, Sees(b)),
     RequestSync, DebounceFires(2), SpawnedRuns(0, Sees(a)),
     InventoryReplies(0, InventoryOk(inv), Sees(a)), PublishReplies(0, PublishConnection, Sees(a)),
     InventoryReplies(0, InventoryOk(inv), Sees(a))]
  }

  /** A publisher at rest with these requests still to run. */
  ghost predicate Resting(cfg: Config, s: State, b: Book, requests: seq<bool>) {
    && Faithful(cfg, s, b) && s.started && !s.stopped && s.running == [] && !s.lockHeld && !s.pending
    && !s.pendingForce && s.spawned == requests && s.terminalFingerprint.None?
  }

  /** A publisher in whose one attempt this continuation waits; another turn may be pending, not forced. */
  ghost predicate Attempting(cfg: Config, s: State, b: Book, requests: seq<bool>, k: Continuation, pending: bool) {
    && Faithful(cfg, s, b) && s.started && !s.stopped && s.running == [k] && s.lockHeld && s.pending == pending
    && !s.pendingForce && s.spawned == requests && s.terminalFingerprint.None?
  }

  /** No timer but the periodic one has been armed since, or all have fired. */
  ghost predicate Quiet(s: State, next: nat) {
    s.nextTimer == next && s.debounce.None? && s.retry.None? && s.live.debounce == {}
  }

  const EMPTY := Book(None, 0)

  lemma Starts(cfg: Config, cands: seq<Candidate>)
    requires Injective(cfg.digest) && WellFormedRegistry(Complete(cands, 0))
    ensures
      var t := Step(cfg, Fresh, Start(Sees(cands)));
      Attempting(cfg, t, EMPTY, [], AwaitInventory(false, cands, 0, false), false) && Quiet(t, 1)
  {
    StepFaithful(cfg, Fresh, Start(Sees(cands)), EMPTY);
  }

  lemma RequestRuns(cfg: Config, s: State, b: Book, cands: seq<Candidate>, next: nat)
    requires Injective(cfg.digest) && Resting(cfg, s, b, [false]) && Quiet(s, next)
    requires WellFormedRegistry(Complete(cands, 0))
    ensures
      var t := Step(cfg, s, SpawnedRuns(0, Sees(cands)));
      Attempting(cfg, t, b, [], AwaitInventory(false, cands, 0, true), false) && Quiet(t, next)
  {
    assert Without(s.spawned, 0) == [];
    StepFaithful(cfg, s, SpawnedRuns(0, Sees(cands)), b);
  }

  /** A change of the registry is noticed, and its debounce timer fires. */
  lemma RegistryChanges(cfg: Config, s: State, b: Book, next: nat)
    requires Injective(cfg.digest) && Faithful(cfg, s, b) && !s.stopped && Quiet(s, next) && s.spawned == []
    ensures
      var t := Step(cfg, Step(cfg, s, RequestSync), DebounceFires(next));
      && t == s.(spawned := [false], live := t.live, nextTimer := next + 1, log := t.log)
      && Quiet(t, next + 1) && Faithful(cfg, t, b)
  {
    hide Faithful;
    StepFaithful(cfg, s, RequestSync, b);
    StepFaithful(cfg, Step(cfg, s, RequestSync), DebounceFires(next), b);
  }

  /** A request that runs while an attempt is under way is coalesced. */
  lemma Coalesces(cfg: Config, s: State, b: Book, k: Continuation, cands: seq<Candidate>)
    requires Injective(cfg.digest) && Attempting(cfg, s, b, [false], k, false)
    requires WellFormedRegistry(Complete(cands, 0))
    ensures Attempting(cfg, Step(cfg, s, SpawnedRuns(0, Sees(cands))), b, [], k, true)
  {
    hide Faithful;
    assert Without(s.spawned, 0) == [];
    StepFaithful(cfg, s, SpawnedRuns(0, Sees(cands)), b);
  }

  lemma InventoryOf(cfg: Config, s: State, k: Continuation, reply: InventoryReply, obs: Observation)
    requires s.running == [k] && k.AwaitInventory?
    ensures
      var t := s.(running := []);
      Step(cfg, s, InventoryReplies(0, reply, obs)) == Resume(cfg, t, AfterInventory(cfg, t, k, reply), k.inTask, obs)
  {
    hide Resume, AfterInventory, AfterPublish, StartStep, StopStep, RequestStep, DebounceStep, RetryStep, PeriodicStep, SpawnedStep;
    assert Without(s.running, 0) == [];
  }

  lemma PublishOf(cfg: Config, s: State, k: Continuation, reply: PublishReply, obs: Observation)
    requires s.running == [k] && k.AwaitPublish?
    ensures
      var t := s.(running := []);
      Step(cfg, s, PublishReplies(0, reply, obs)) == Resume(cfg, t, AfterPublish(cfg, t, k, reply), k.inTask, obs)
  {
    hide Resume, AfterInventory, AfterPublish, StartStep, StopStep, RequestStep, DebounceStep, RetryStep, PeriodicStep, SpawnedStep;
    assert Without(s.running, 0) == [];
  }

  lemma ResumeReleases(cfg: Config, s: State, t: State, inTask: bool, obs: Observation)
    requires s.running == [] && t.running == [] && !t.pending && AttemptRaised !in t.log
    ensures Resume(cfg, s, t, inTask, obs) == Release(t)
  {
    assert t.log != [] ==> t.log[|t.log| - 1] in t.log;
  }

  lemma NewRowsDecided(cfg: Config, s: State, b: Book, build: Build, inTask: bool, obs: Observation)
    requires Injective(cfg.digest) && GoodBuild(cfg, build) && b.trusted != Some(build.devices)
    requires Faithful(cfg, s, b) && s.running == [] && s.terminalFingerprint.None?
    ensures Resume(cfg, s, Decide(s, false, build, inTask), inTask, obs) == s.(running := [AwaitPublish(build, inTask)])
  {
    hide LoopTail, Finish;
    assert s.lastFingerprint != Some(build.fingerprint);
    hide Faithful, GoodBuild;
    assert s.running + [AwaitPublish(build, inTask)] == [AwaitPublish(build, inTask)];
  }

  /** Rows the cache does not hold are published. */
  lemma NewRowsPublish(
    cfg: Config, s: State, b: Book, cands: seq<Candidate>, inv: seq<CoreDevice>, inTask: bool, pending: bool,
    build: Build, obs: Observation)
    requires Injective(cfg.digest) && BuildOf(cfg, cands, 0, inv) == Some(build) && GoodBuild(cfg, build)
    requires b.trusted != Some(build.devices)
    requires Attempting(cfg, s, b, [], AwaitInventory(false, cands, 0, inTask), pending)
    ensures
      var t := Step(cfg, s, InventoryReplies(0, InventoryOk(inv), obs));
      t == s.(running := [AwaitPublish(build, inTask)]) && Attempting(cfg, t, b, [], AwaitPublish(build, inTask), pending)
  {
    hide Resume, Decide, BuildOf;
    InventoryOf(cfg, s, s.running[0], InventoryOk(inv), obs);
    InventoryDecides(cfg, s.(running := []), s.running[0], inv);
    NewRowsDecided(cfg, s.(running := []), b, build, inTask, obs);
  }

  lemma FinishKeeps(s: State, outcome: Option<Outcome>, lastSuccessAt: Option<string>)
    ensures
      var t := Finish(s, outcome, lastSuccessAt);
      t == s.(diagnostics := t.diagnostics, log := t.log)
  {
    hide NextDiagnostics, Show;
    ShowKeeps(s, NextDiagnostics(s.diagnostics, Successful, outcome, lastSuccessAt, None));
  }

  /** Core keeps everything: the cache now holds these rows. */
  lemma KeptAllRests(cfg: Config, s: State, build: Build, obs: Observation)
    requires Injective(cfg.digest) && GoodBuild(cfg, build) && Attempting(cfg, s, EMPTY, [], AwaitPublish(build, false), false)
    requires Quiet(s, 1) && WellFormedObservation(obs)
    ensures
      var t := Step(cfg, s, PublishReplies(0, PublishOk(KeptResult(|build.devices|)), obs));
      Resting(cfg, t, Book(Some(build.devices), 1), []) && Quiet(t, 1)
  {
    hide Finish, Resume, Step;
    var k, u, result := s.running[0], s.(running := []), KeptResult(|build.devices|);
    StepFaithful(cfg, s, PublishReplies(0, PublishOk(result), obs), EMPTY);
    PublishOf(cfg, s, k, PublishOk(result), obs);
    AfterPublishFaithful(cfg, u, k, PublishOk(result), EMPTY);
    Used(cfg, u, k, result);
    OutcomeExactlySelfConsistent(build, result);
    var outcome := CompletedOutcome(build, result).value;
    FinishKeeps(Remember(u, build, result), Some(outcome), result.lastPushAt);
    ResumeReleases(cfg, u, AfterPublish(cfg, u, k, PublishOk(result)), false, obs);
  }

  lemma FailKeeps(cfg: Config, s: State)
    ensures
      var t := EndRetrying(cfg, Fail(s, ConnectionFailed, "connection"));
      t == s.(diagnostics := t.diagnostics, retryIndex := t.retryIndex, retry := t.retry, live := t.live,
              nextTimer := t.nextTimer, log := t.log)
  {
    hide NextDiagnostics, Show, ScheduleRetry;
    var u := Fail(s, ConnectionFailed, "connection");
    ShowKeeps(s, NextDiagnostics(s.diagnostics, ConnectionFailed, None, None, Some("connection")));
    assert u == s.(diagnostics := u.diagnostics, log := u.log);
    ScheduleKeeps(cfg, u);
  }

  lemma TurnsAgain(cfg: Config, s: State, cands: seq<Candidate>)
    requires !s.stopped && s.running == []
    ensures LoopTurn(cfg, s, false, true, Sees(cands)) ==
            Log(s.(pending := false, pendingForce := false), AttemptStarted(false)).(
              running := [AwaitInventory(false, cands, 0, true)])
  {
    assert s.running + [AwaitInventory(false, cands, 0, true)] == [AwaitInventory(false, cands, 0, true)];
  }

  lemma ResumeTurns(cfg: Config, s: State, t: State, obs: Observation)
    requires s.running == [] && t.running == [] && t.pending && !t.pendingForce && AttemptRaised !in t.log
    ensures Resume(cfg, s, t, true, obs) == LoopTurn(cfg, t, false, true, obs)
  {
    hide LoopTurn;
    assert t.log != [] ==> t.log[|t.log| - 1] in t.log;
  }

  /** The reply is lost: the cache still holds the old rows, and the pending turn begins. */
  lemma ConnectionFails(cfg: Config, s: State, b: Book, build: Build, cands: seq<Candidate>)
    requires Injective(cfg.digest) && Attempting(cfg, s, b, [], AwaitPublish(build, true), true)
    requires WellFormedRegistry(Complete(cands, 0))
    ensures Attempting(cfg, Step(cfg, s, PublishReplies(0, PublishConnection, Sees(cands))), b, [],
                       AwaitInventory(false, cands, 0, true), false)
  {
    hide Resume, EndRetrying, Fail, Faithful, Step, LoopTurn;
    var k, u := s.running[0], s.(running := []);
    var t := EndRetrying(cfg, Fail(u, ConnectionFailed, "connection"));
    StepFaithful(cfg, s, PublishReplies(0, PublishConnection, Sees(cands)), b);
    RemovedReady(cfg, s, 0, b);
    PublishOf(cfg, s, k, PublishConnection, Sees(cands));
    assert Without(s.running, 0) == [];
    AfterPublishFaithful(cfg, u, k, PublishConnection, b);
    NoneRaised(cfg, t, b);
    FailKeeps(cfg, u);
    ResumeTurns(cfg, u, t, Sees(cands));
    TurnsAgain(cfg, t, cands);
  }

  /** Rows the cache holds are answered with a success. */
  lemma CacheAnswers(
    cfg: Config, s: State, b: Book, cands: seq<Candidate>, inv: seq<CoreDevice>, build: Build, obs: Observation)
    requires Injective(cfg.digest) && BuildOf(cfg, cands, 0, inv) == Some(build) && GoodBuild(cfg, build)
    requires b.trusted == Some(build.devices)
    requires Attempting(cfg, s, b, [], AwaitInventory(false, cands, 0, true), false)
    ensures
      var t := Step(cfg, s, InventoryReplies(0, InventoryOk(inv), obs));
      Shows(t.diagnostics) && t.diagnostics.stored == Some(|build.devices|)
  {
    hide Resume, BuildOf, Finish, Step;
    var k, u := s.running[0], s.(running := []);
    InventoryOf(cfg, s, k, InventoryOk(inv), obs);
    InventoryDecides(cfg, u, k, inv);
    CacheHit(cfg, u, build, b);
    var outcome := CompletedOutcome(build, u.lastFullResult.value).value;
    FinishShows(u, outcome, None);
    FinishKeeps(u, Some(outcome), None);
    FinishFaithful(cfg, u, outcome, None, b);
    ResumeReleases(cfg, u, Finish(u, Some(outcome), None), true, obs);
  }

  /* ---------------- the run ---------------- */

  lemma RunStep(cfg: Config, inputs: seq<Input>, n: nat)
    requires n < |inputs|
    ensures Run(cfg, inputs[..n + 1]) == Step(cfg, Run(cfg, inputs[..n]), inputs[n])
  {
    hide Step;
    assert inputs[..n + 1][..n] == inputs[..n];
  }

  ghost predicate Differ(a: seq<Candidate>, b: seq<Candidate>, inv: seq<CoreDevice>) {
    && WellFormedRegistry(Complete(a, 0)) && WellFormedRegistry(Complete(b, 0)) && WellFormedInventory(inv)
    && Rows(a, inv) != Rows(b, inv)
  }

  /** The publisher's side of the run. */
  lemma LostRun(cfg: Config, a: seq<Candidate>, b: seq<Candidate>, inv: seq<CoreDevice>)
    requires Injective(cfg.digest) && Differ(a, b, inv)
    ensures
      var inputs := LostCommit(a, b, inv);
      var buildA, buildB := BuildOf(cfg, a, 0, inv), BuildOf(cfg, b, 0, inv);
      && buildA.Some? && buildA.value.devices == Rows(a, inv) && buildB.Some? && buildB.value.devices == Rows(b, inv)
      && Run(cfg, inputs[..2]).running == [AwaitPublish(buildA.value, false)]
      && Run(cfg, inputs[..10]).running == [AwaitPublish(buildB.value, true)]
      && Run(cfg, inputs[..11]).running == [AwaitInventory(false, a, 0, true)]
      && Shows(Run(cfg, inputs).diagnostics) && Run(cfg, inputs).diagnostics.stored == Some(|Rows(a, inv)|)
  {
    hide Run, Step, BuildOf, Resolved, GoodBuild, WellFormedInventory, WellFormedRegistry, Injective, Faithful;
    var inputs := LostCommit(a, b, inv);
    BuildsWell(cfg, a, 0, inv);
    BuildsWell(cfg, b, 0, inv);
    var buildA, buildB := BuildOf(cfg, a, 0, inv).value, BuildOf(cfg, b, 0, inv).value;
    var book := Book(Some(Rows(a, inv)), 1);
    NothingRun(cfg, inputs);
    RunStep(cfg, inputs, 0);
    RunStep(cfg, inputs, 1);
    RunStep(cfg, inputs, 2);
    Starts(cfg, a);
    NewRowsPublish(cfg, Run(cfg, inputs[..1]), EMPTY, a, inv, false, false, buildA, Sees(a));
    KeptAllRests(cfg, Run(cfg, inputs[..2]), buildA, Sees(a));
    ThenLost(cfg, a, b, inv);
  }

  /** From where Core has kept the rows of `a`. */
  lemma ThenLost(cfg: Config, a: seq<Candidate>, b: seq<Candidate>, inv: seq<CoreDevice>)
    requires Injective(cfg.digest) && Differ(a, b, inv)
    requires BuildOf(cfg, a, 0, inv).Some? && GoodBuild(cfg, BuildOf(cfg, a, 0, inv).value)
    requires BuildOf(cfg, b, 0, inv).Some? && GoodBuild(cfg, BuildOf(cfg, b, 0, inv).value)
    requires BuildOf(cfg, a, 0, inv).value.devices == Rows(a, inv) && BuildOf(cfg, b, 0, inv).value.devices == Rows(b, inv)
    requires
      var s := Run(cfg, LostCommit(a, b, inv)[..3]);
      Resting(cfg, s, Book(Some(Rows(a, inv)), 1), []) && Quiet(s, 1)
    ensures
      var inputs := LostCommit(a, b, inv);
      && Run(cfg, inputs[..10]).running == [AwaitPublish(BuildOf(cfg, b, 0, inv).value, true)]
      && Run(cfg, inputs[..11]).running == [AwaitInventory(false, a, 0, true)]
      && Shows(Run(cfg, inputs).diagnostics) && Run(cfg, inputs).diagnostics.stored == Some(|Rows(a, inv)|)
  {
    hide Run, Step, BuildOf, Resolved, GoodBuild, WellFormedInventory, WellFormedRegistry, Injective, Faithful;
    var inputs, book := LostCommit(a, b, inv), Book(Some(Rows(a, inv)), 1);
    var buildA, buildB := BuildOf(cfg, a, 0, inv).value, BuildOf(cfg, b, 0, inv).value;
    var k := AwaitInventory(false, b, 0, true);
    RunStep(cfg, inputs, 3);
    RunStep(cfg, inputs, 4);
    RegistryChanges(cfg, Run(cfg, inputs[..3]), book, 1);
    RunStep(cfg, inputs, 5);
    RequestRuns(cfg, Run(cfg, inputs[..5]), book, b, 2);
    RunStep(cfg, inputs, 6);
    RunStep(cfg, inputs, 7);
    RegistryChanges(cfg, Run(cfg, inputs[..6]), book, 2);
    RunStep(cfg, inputs, 8);
    Coalesces(cfg, Run(cfg, inputs[..8]), book, k, a);
    RunStep(cfg, inputs, 9);
    NewRowsPublish(cfg, Run(cfg, inputs[..9]), book, b, inv, true, true, buildB, Sees(a));
    RunStep(cfg, inputs, 10);
    ConnectionFails(cfg, Run(cfg, inputs[..10]), book, buildB, a);
    RunStep(cfg, inputs, 11);
    CacheAnswers(cfg, Run(cfg, inputs[..11]), book, a, inv, buildA, Sees(a));
    assert inputs[..12] == inputs;
  }

  lemma NothingRun(cfg: Config, inputs: seq<Input>)
    ensures Run(cfg, inputs[..0]) == Fresh
  {
  }

  lemma Steps(cfg: Config, inputs: seq<Input>)
    ensures forall n :: 0 <= n < |inputs| ==> Run(cfg, inputs[..n + 1]) == Step(cfg, Run(cfg, inputs[..n]), inputs[n])
  {
    forall n | 0 <= n < |inputs| ensures Run(cfg, inputs[..n + 1]) == Step(cfg, Run(cfg, inputs[..n]), inputs[n]) {
      RunStep(cfg, inputs, n);
    }
  }

  /** Core beside that run: it keeps `a`, and later stores `b` although the reply is lost. */
  function Beside(cfg: Config, inputs: seq<Input>, first: seq<Row>, a: seq<Row>, b: seq<Row>): seq<World> {
    seq(|inputs| + 1, i requires 0 <= i <= |inputs| =>
      World(Run(cfg, inputs[..i]), if i < 3 then first else if i < 11 then a else b))
  }

  /**
   If Core may have stored a publish whose reply is a failure, a success is shown for rows Core does not
   store: in this run for the rows of `a`, just built, while Core stores those of `b`.
   */
  lemma LostCommitGoesUnnoticed(
    cfg: Config, a: seq<Candidate>, b: seq<Candidate>, inv: seq<CoreDevice>, first: seq<Row>)
    requires Injective(cfg.digest) && Differ(a, b, inv)
    ensures
      var inputs := LostCommit(a, b, inv);
      var worlds := Beside(cfg, inputs, first, Rows(a, inv), Rows(b, inv));
      && History(cfg, worlds, inputs, true)
      && Enabled(worlds[11].publisher, inputs[11]) && Built(cfg, worlds[11].publisher, inputs[11]) == Some(Rows(a, inv))
      && Shows(worlds[12].publisher.diagnostics) && worlds[12].publisher.diagnostics.stored == Some(|Rows(a, inv)|)
      && worlds[12].core == Rows(b, inv) != Rows(a, inv)
  {
    hide Run, Step, BuildOf, Resolved, WellFormedInventory, WellFormedRegistry, Injective, Shows;
    var inputs := LostCommit(a, b, inv);
    var worlds := Beside(cfg, inputs, first, Rows(a, inv), Rows(b, inv));
    LostRun(cfg, a, b, inv);
    NothingRun(cfg, inputs);
    Steps(cfg, inputs);
    assert inputs[..12] == inputs;
    forall i | 0 <= i < |inputs| ensures Next(cfg, worlds[i], inputs[i], worlds[i + 1], true) {
      assert worlds[i + 1].publisher == Step(cfg, worlds[i].publisher, inputs[i]);
    }
  }

  /* ---------------- one lamp ---------------- */

  const LAMP := Candidate("0x00124b0000000001", "lamp", None, None, None, None, None)
  const LAMP_ON_CORE := CoreDevice("home", "0x00124b0000000001", "Lamp")
  const LAMP_ROW := Row("home", "0x00124b0000000001", "lamp", None, None, None, None)

  lemma LampChosen()
    ensures Select(LAMP, [LAMP_ON_CORE]) == Some(LAMP_ON_CORE)
  {
    FilterAll(OfIeee(LAMP.ieee), [LAMP_ON_CORE]);
  }

  const LAMP_ID := Identity("home", "0x00124b0000000001")

  lemma LampIds()
    ensures SortedIds([LAMP], [LAMP_ON_CORE]) == [LAMP_ID]
  {
    hide Select, IdentityLe;
    LampChosen();
    assert [LAMP][..0] == [];
    assert SelectedIds([LAMP], [LAMP_ON_CORE]) == [] + [LAMP_ID];
    FirstsAppend([], LAMP_ID);
    assert [] + [LAMP_ID] == [LAMP_ID] && [LAMP_ID][1..] == [];
  }

  lemma LampSole()
    ensures SoleRows([LAMP_ID], [LAMP], [LAMP_ON_CORE]) == [LAMP_ROW]
  {
    hide Select;
    LampChosen();
    FilterAll(Claims(LAMP_ID, [LAMP_ON_CORE]), [LAMP]);
    assert [LAMP_ID][..0] == [];
    assert SoleRows([], [LAMP], [LAMP_ON_CORE]) == [];
  }

  lemma LampAlone()
    ensures Filter(Unconflicted([LAMP_ROW]), [LAMP_ROW]) == [LAMP_ROW]
  {
    FilterAll(OnDevice(LAMP_ROW.haDeviceId), [LAMP_ROW]);
    FilterAll(Unconflicted([LAMP_ROW]), [LAMP_ROW]);
  }

  lemma LampResolves()
    ensures Rows([LAMP], [LAMP_ON_CORE]) == [LAMP_ROW]
  {
    hide SortedIds, SoleRows, Contested, Filter;
    LampIds();
    LampSole();
    LampAlone();
  }

  lemma NothingResolves(inv: seq<CoreDevice>)
    ensures Rows([], inv) == []
  {
    hide Contested;
    assert SelectedIds([], inv) == [];
  }

  lemma LampWellFormed()
    ensures WellFormedRegistry(Complete([LAMP], 0)) && WellFormedRegistry(Complete([], 0))
    ensures WellFormedInventory([LAMP_ON_CORE])
  {
  }

  /** Core keeps a lamp, then stores that there is none; the lamp is shown as stored all the same. */
  lemma LampIsLost(cfg: Config)
    requires Injective(cfg.digest)
    ensures
      var inputs := LostCommit([LAMP], [], [LAMP_ON_CORE]);
      var worlds := Beside(cfg, inputs, [], [LAMP_ROW], []);
      && History(cfg, worlds, inputs, true)
      && Shows(worlds[12].publisher.diagnostics) && worlds[12].publisher.diagnostics.stored == Some(1)
      && worlds[12].core == []
  {
    hide History, Shows, Resolved, LostCommit, Run;
    LampResolves();
    NothingResolves([LAMP_ON_CORE]);
    LampWellFormed();
    LostCommitGoesUnnoticed(cfg, [LAMP], [], [LAMP_ON_CORE], []);
  }
}
