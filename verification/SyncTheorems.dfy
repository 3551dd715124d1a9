/**
 The promises of the publisher over every run, stated on what happened: the
 events of the log and what the scheduler and the task set still hold.
 */
module SyncTheorems {
  import opened Basics
  import opened EnrichmentTypes
  import opened SyncOutcome
  import opened SyncProtocol
  import opened SyncProperties

  /** An attempt at least as strong as request `i` started after it. */
  ghost predicate Served(log: seq<Event>, i: nat)
    requires i < |log| && log[i].Requested?
  {
    exists j :: i < j < |log| && log[j].AttemptStarted? && (log[i].force ==> log[j].force)
  }

  lemma ServedLonger(log: seq<Event>, e: Event, i: nat)
    requires i < |log| && log[i].Requested?
    ensures Served(log + [e], i) <==>
            Served(log, i) || (e.AttemptStarted? && (log[i].force ==> e.force))
  {
    var longer := log + [e];
    assert longer[i] == log[i];
    if e.AttemptStarted? && (log[i].force ==> e.force) {
      assert longer[|log|] == e;
    }
    if Served(log, i) {
      var j :| i < j < |log| && log[j].AttemptStarted? && (log[i].force ==> log[j].force);
      assert longer[j] == log[j];
    }
  }

  /** The manager has not been stopped since event `i`. */
  ghost predicate NoStop(log: seq<Event>, i: nat) { forall j :: i < j < |log| ==> log[j] != Stopped }

  /** An unserved request is one the summary still counts as waiting. */
  lemma {:induction false} UnservedWaits(log: seq<Event>, delays: seq<nat>, i: nat)
    requires i < |log| && log[i].Requested? && NoStop(log, i)
    ensures Served(log, i) || (if log[i].force then Sum(log, delays).strong else Sum(log, delays).weak)
  {
    var init, last := log[..|log| - 1], log[|log| - 1];
    assert log == init + [last];
    Appended(init, last, delays);
    if i < |init| {
      UnservedWaits(init, delays, i);
      ServedLonger(init, last, i);
    }
  }

  lemma {:induction false} NoRaise(log: seq<Event>, delays: seq<nat>)
    ensures Sum(log, delays).raised <==> AttemptRaised in log
  {
    if log != [] {
      NoRaise(log[..|log| - 1], delays);
      assert log == log[..|log| - 1] + [log[|log| - 1]];
    }
  }

  /** At most one attempt is ever under way, and the lock is held exactly while one is. */
  lemma SingleFlight(cfg: Config, inputs: seq<Input>)
    ensures
      var s := Run(cfg, inputs);
      |s.running| <= 1 && (s.lockHeld <==> |s.running| == 1)
  {
    RunSafe(cfg, inputs);
  }

  /**
   No request is lost: until stop, and while attempts return normally, every request made so far has
   been followed by an attempt at least as strong, or something that leads to one still exists.
   */
  lemma NoLostRequest(cfg: Config, inputs: seq<Input>, i: nat)
    requires
      var s := Run(cfg, inputs);
      !s.stopped && AttemptRaised !in s.log && i < |s.log| && s.log[i].Requested? && NoStop(s.log, i)
    ensures
      var s := Run(cfg, inputs);
      || Served(s.log, i)
      || (s.lockHeld && s.pending && (s.log[i].force ==> s.pendingForce))
      || (if s.log[i].force then true in s.spawned else s.spawned != [] || s.live.debounce != {})
  {
    RunSafe(cfg, inputs);
    var s := Run(cfg, inputs);
    NoRaise(s.log, cfg.retryDelays);
    UnservedWaits(s.log, cfg.retryDelays, i);
    assert s.debounce.Some? ==> s.debounce.value in s.live.debounce;
  }

  /** When nothing is scheduled, spawned or running, every request has been served. */
  lemma IdleMeansServed(cfg: Config, inputs: seq<Input>, i: nat)
    requires
      var s := Run(cfg, inputs);
      && !s.stopped && AttemptRaised !in s.log && i < |s.log| && s.log[i].Requested? && NoStop(s.log, i)
      && !s.lockHeld && s.spawned == [] && s.live.debounce == {}
    ensures Served(Run(cfg, inputs).log, i)
  {
    NoLostRequest(cfg, inputs, i);
  }

  /** After an attempt that asked for a retry, something that will attempt again exists until stop. */
  lemma NoStall(cfg: Config, inputs: seq<Input>, i: nat)
    requires cfg.retryDelays != []
    requires
      var s := Run(cfg, inputs);
      && !s.stopped && AttemptRaised !in s.log
      && i < |s.log| && s.log[i] == AttemptEnded(true) && NoStop(s.log, i)
      && forall j :: i < j < |s.log| ==> !s.log[j].AttemptEnded?
    ensures
      var s := Run(cfg, inputs);
      s.live.retry != {} || s.live.debounce != {} || s.spawned != [] || s.lockHeld
  {
    RunSafe(cfg, inputs);
    var s := Run(cfg, inputs);
    NoRaise(s.log, cfg.retryDelays);
    LastEnd(s.log, cfg.retryDelays, i);
    assert s.debounce.Some? ==> s.debounce.value in s.live.debounce;
    assert s.retry.Some? ==> s.retry.value in s.live.retry;
  }

  lemma {:induction false} LastEnd(log: seq<Event>, delays: seq<nat>, i: nat)
    requires i < |log| && log[i].AttemptEnded? && NoStop(log, i)
    requires forall j :: i < j < |log| ==> !log[j].AttemptEnded?
    ensures Sum(log, delays).endedRetrying == log[i].retries
  {
    if i < |log| - 1 {
      LastEnd(log[..|log| - 1], delays, i);
    }
  }

  /** Retries among the first `n` events since the last fully converged publish among them. */
  function RetriesSince(log: seq<Event>, n: nat): nat
    requires n <= |log|
  {
    if n == 0 || log[n - 1].Converged? then 0
    else RetriesSince(log, n - 1) + (if log[n - 1].RetryScheduled? then 1 else 0)
  }

  lemma {:induction false} RetriesCounted(log: seq<Event>, delays: seq<nat>, n: nat)
    requires n <= |log|
    ensures Sum(log[..n], delays).retries == RetriesSince(log, n)
  {
    if n > 0 {
      RetriesCounted(log, delays, n - 1);
      assert log[..n][..n - 1] == log[..n - 1];
    }
  }

  lemma {:induction false} ExactEverywhere(log: seq<Event>, delays: seq<nat>, i: nat)
    requires Sum(log, delays).exact && i < |log| && log[i].RetryScheduled?
    ensures delays != [] && log[i].delay == delays[Min(RetriesSince(log, i), |delays| - 1)]
  {
    var init := log[..|log| - 1];
    if i < |log| - 1 {
      ExactEverywhere(init, delays, i);
      RetriesCounted(log, delays, i);
      RetriesCounted(init, delays, i);
      assert init[..i] == log[..i];
    } else {
      RetriesCounted(log, delays, i);
    }
  }

  /** The k-th retry since the last fully converged publish waits for delay min(k, last). */
  lemma BackoffSchedule(cfg: Config, inputs: seq<Input>, i: nat)
    requires i < |Run(cfg, inputs).log| && Run(cfg, inputs).log[i].RetryScheduled?
    ensures
      var log := Run(cfg, inputs).log;
      && cfg.retryDelays != []
      && log[i].delay == cfg.retryDelays[Min(RetriesSince(log, i), |cfg.retryDelays| - 1)]
  {
    RunSafe(cfg, inputs);
    ExactEverywhere(Run(cfg, inputs).log, cfg.retryDelays, i);
  }

  /** Never two timers of a kind, and never one the manager could not cancel. */
  lemma NoLeakedTimers(cfg: Config, inputs: seq<Input>)
    ensures
      var s := Run(cfg, inputs);
      && |s.live.debounce| <= 1 && |s.live.retry| <= 1 && |s.live.periodic| <= 1
      && (forall id :: id in s.live.debounce <==> s.debounce == Some(id))
      && (forall id :: id in s.live.retry <==> s.retry == Some(id))
      && (forall id :: id in s.live.periodic <==> s.periodic == Some(id))
  {
    RunSafe(cfg, inputs);
    var s := Run(cfg, inputs);
    forall handle: Option<nat> ensures |HandleSet(handle)| <= 1 &&
                                       forall id :: id in HandleSet(handle) <==> handle == Some(id) {}
  }

  /* ---------------- after stop ---------------- */

  /** The loop may still return from an attempt it cannot cancel, but starts and schedules nothing. */
  ghost predicate StaysStopped(s: State, t: State) {
    && t.started && t.stopped && t.nextTimer == s.nextTimer && NoTimers(t) && t.spawned == []
  }

  lemma StepAfterStop(cfg: Config, s: State, input: Input)
    requires Safe(cfg, s) && s.started && s.stopped
    ensures StaysStopped(s, Step(cfg, s, input))
  {
    if Enabled(s, input) {
      match input {
        case Start(_) =>
        case Stop =>
        case RequestSync =>
        case DebounceFires(_) =>
        case RetryFires(_) =>
        case PeriodicFires(_) =>
        case SpawnedRuns(_, _) =>
        case InventoryReplies(index, reply, obs) =>
          var k, t := s.running[index], s.(running := Without(s.running, index));
          AfterInventoryCode(cfg, t, k, reply);
          ResumeAfterStop(cfg, t, AfterInventory(cfg, t, k, reply), k.inTask, obs);
        case PublishReplies(index, reply, obs) =>
          var k, t := s.running[index], s.(running := Without(s.running, index));
          AfterPublishCode(cfg, t, k, reply);
          ResumeAfterStop(cfg, t, AfterPublish(cfg, t, k, reply), k.inTask, obs);
      }
    }
  }

  lemma ResumeAfterStop(cfg: Config, s: State, t: State, inTask: bool, obs: Observation)
    requires s.started && s.stopped && Silent(s)
    requires Progressed(cfg, s, t) || t == Log(s, AttemptRaised)
    ensures StaysStopped(s, Resume(cfg, s, t, inTask, obs))
  {
    if t != Log(s, AttemptRaised) {
      assert AttemptCode(cfg, s, t);
      assert t.started == FrameOf(cfg, t).started && t.stopped == FrameOf(cfg, t).stopped;
      assert t.spawned == FrameOf(cfg, t).spawned;
    }
  }

  /** Once a started manager has stopped, whatever happens next, no timer and no task is created. */
  lemma {:induction false} StoppedForGood(cfg: Config, inputs: seq<Input>, more: seq<Input>)
    requires Run(cfg, inputs).started && Run(cfg, inputs).stopped
    ensures StaysStopped(Run(cfg, inputs), Run(cfg, inputs + more))
  {
    if more == [] {
      assert inputs + more == inputs;
      RunSafe(cfg, inputs);
    } else {
      var init := more[..|more| - 1];
      StoppedForGood(cfg, inputs, init);
      RunSafe(cfg, inputs + init);
      assert (inputs + more)[..|inputs + more| - 1] == inputs + init;
      StepAfterStop(cfg, Run(cfg, inputs + init), more[|more| - 1]);
    }
  }
}
