/** The session protocol's guarantees over every run, whatever order things happen in. */
module SessionTheorems {
  import opened Basics
  import opened AuthState
  import opened SessionProbes
  import opened SessionSafety

  lemma GrowsMoves(s: State, t: State)
    requires Grows(s, t)
    ensures Moves(s, t)
  {
  }

  /** A step that moves the runtime and tidies the table, then starts a probe. */
  lemma ThenProbe(s: State, t: State, kind: Kind, reason: Reason)
    requires Sound(s) && Forward(s.runtime, t.runtime) && Tidied(s.probes, t.probes) && LogoutOk(t)
    ensures Sound(StartProbe(t, kind, reason)) && Grows(s, StartProbe(t, kind, reason))
  {
    hide Sound, Grows, StartProbe;
    QuietStep(s, t);
    StartProbeKeeps(t, kind, reason);
    GrowsTwice(s, t, StartProbe(t, kind, reason));
  }

  lemma Still(s: State)
    requires Sound(s)
    ensures Forward(s.runtime, s.runtime) && Tidied(s.probes, s.probes) && LogoutOk(s) && Grows(s, s) && Consistent(s.runtime)
  {
  }

  lemma UnauthorizedKeeps(s: State)
    requires Sound(s)
    ensures
      var told := s.(runtime := Step(s.runtime, NotifyUnauthorized));
      && Sound(told) && Grows(s, told)
      && Sound(HandleUnauthorized(told)) && Grows(s, HandleUnauthorized(told))
  {
    hide Sound, Grows, StartProbe, Step, Forward;
    Still(s);
    var told := s.(runtime := Step(s.runtime, NotifyUnauthorized));
    StepForward(s.runtime, NotifyUnauthorized);
    QuietStep(s, told);
    Still(told);
    StepForward(told.runtime, ReleaseDedupe);
    StepForward(told.runtime, Clear);
    if s.flags.logoutInFlight {
      QuietStep(told, HandleUnauthorized(told));
    } else {
      var checking :=
        told.(timers := told.timers.(focus := false, revalidate := false), runtime := Step(told.runtime, Clear),
              transport := NoCredentials(told.transport), view := View(Checking, Checking, Unauthorized, false));
      ThenProbe(told, checking, UnauthorizedProbe, Unauthorized);
    }
    GrowsTwice(s, told, HandleUnauthorized(told));
  }

  lemma FocusPageKeeps(s: State, past: bool)
    requires Sound(s)
    ensures Sound(FocusPage(s, past)) && Grows(s, FocusPage(s, past))
  {
    hide Sound, Grows, Expire;
    Still(s);
    if Overdue(s, past) {
      ExpireKeeps(s);
    } else {
      ViewKeeps(s, s.(timers := s.timers.(focus := true)));
    }
  }

  lemma SettleLoginKeeps(s: State, b: Bootstrap)
    requires Sound(s)
    ensures Sound(SettleLogin(s, b)) && Grows(s, SettleLogin(s, b))
  {
    hide Sound, Grows, StartProbe, LockUi;
    Still(s);
    StartProbeKeeps(s, LoginProbe, Initial);
    LockUiKeeps(s, SetupRequired, Configuration);
    LockUiKeeps(s, PhaseUnreachable, Network);
    LockUiKeeps(s, Locked, ProtocolFault);
    ViewKeeps(s, SetView(s, Locked, Unauthorized));
    ViewKeeps(s, SetView(s, Locked, OriginRejected));
  }

  lemma SettleLogoutKeeps(s: State, d: Deletion, hadExpiry: bool, past: bool)
    requires Sound(s)
    ensures Sound(SettleLogout(s, d, hadExpiry, past)) && Grows(s, SettleLogout(s, d, hadExpiry, past))
  {
    hide Sound, Grows, StartProbe, LockUi, Restore;
    Still(s);
    StartProbeKeeps(s, LogoutProbe, LoggedOut);
    LockUiKeeps(s, Locked, ProtocolFault);
    RestoreKeeps(s, hadExpiry || HasExpiry(s), past);
  }

  lemma LoginSettlesKeeps(s: State, b: Bootstrap)
    requires Sound(s)
    ensures Sound(Next(s, LoginSettles(b))) && Grows(s, Next(s, LoginSettles(b)))
  {
    hide Sound, Grows, SettleLogin;
    Still(s);
    SettleLoginKeeps(s, b);
    var settled := SettleLogin(s, b);
    Still(settled);
    var t := settled.(flags := settled.flags.(loginInFlight := false));
    ViewKeeps(settled, t);
    GrowsTwice(s, settled, t);
  }

  lemma LogoutSettlesKeeps(s: State, d: Deletion, had: bool, past: bool)
    requires Sound(s)
    ensures Sound(Next(s, LogoutSettles(d, had, past))) && Grows(s, Next(s, LogoutSettles(d, had, past)))
  {
    hide Sound, Grows, SettleLogout;
    Still(s);
    if s.flags.deletes > 0 {
      var f := s.flags;
      var counted :=
        s.(flags := f.(deletes := f.deletes - 1, ending := if d == DeleteCsrf then f.ending else f.ending + 1,
                       endingCsrf := if d == DeleteCsrf then f.endingCsrf + 1 else f.endingCsrf));
      ViewKeeps(s, counted);
      SettleLogoutKeeps(counted, d, had, past);
      GrowsTwice(s, counted, SettleLogout(counted, d, had, past));
    }
  }

  lemma NoticedKeeps(s: State, e: SessionProbes.Event)
    requires Sound(s)
    ensures Sound(Noticed(s, e)) && Grows(s, Noticed(s, e))
  {
    hide Sound, Grows, StartProbe, Step, Forward, FocusPage, Expire;
    Still(s);
    match e
    case RevalidateFires =>
      var fired := s.(timers := s.timers.(revalidate := false));
      ViewKeeps(s, fired);
      ThenProbe(s, fired, CsrfRefresh, Initial);
    case SseProbe => StartProbeKeeps(s, SseError, Unauthorized);
    case Focused(past) => FocusPageKeeps(s, past);
    case FocusFires =>
      var fired := s.(timers := s.timers.(focus := false));
      ViewKeeps(s, fired);
      ThenProbe(s, fired, FocusProbe, Initial);
    case ExpiryFires =>
      var fired := s.(timers := s.timers.(expiry := false));
      ViewKeeps(s, fired);
      ExpireKeeps(fired);
      GrowsTwice(s, fired, Expire(fired));
    case PageHide =>
      StepForward(s.runtime, AdvanceAccess);
      QuietStep(s, HidePage(s));
    case PageShow(persisted, past) =>
      FocusPageKeeps(s, past);
      ThenProbe(
        s,
        s.(timers := s.timers.(focus := false, revalidate := false), flags := s.flags.(bfcacheSuspended := true),
           view := View(Checking, Checking, Initial, false)),
        BfcacheProbe, Initial);
    case _ =>
  }

  lemma LogoutEndsKeeps(s: State, csrf: bool)
    requires Sound(s)
    ensures Sound(Next(s, LogoutEnds(csrf))) && Grows(s, Next(s, LogoutEnds(csrf)))
  {
    hide Sound, Grows, StartProbe, Forward;
    Still(s);
    var f := s.flags;
    if csrf && f.endingCsrf > 0 {
      ThenProbe(s, s.(flags := f.(logoutInFlight := false, logoutBusy := false, endingCsrf := f.endingCsrf - 1)), CsrfRefresh, Initial);
    }
    if !csrf && f.ending > 0 {
      ViewKeeps(s, s.(flags := f.(logoutInFlight := false, logoutBusy := false, ending := f.ending - 1)));
    }
  }

  /** Every step keeps the invariant, and applies at most the active probe's outcome. */
  lemma NextKeeps(s: State, e: SessionProbes.Event)
    requires Sound(s)
    ensures Sound(Next(s, e)) && Moves(s, Next(s, e))
  {
    hide Sound, Grows, Moves, StartProbe, Step, Forward, HandleUnauthorized, Noticed, Settle, Finish, SettleLogin, SettleLogout;
    Still(s);
    var t := Next(s, e);
    match e
    case ProbeReply(q, o) => SettleKeeps(s, q, o);
    case ProbeEnds(q) => FinishKeeps(s, q); GrowsMoves(s, t);
    case Mount => ThenProbe(s, s.(flags := s.flags.(mounted := true)), InitialProbe, Initial); GrowsMoves(s, t);
    case Render => ViewKeeps(s, t); GrowsMoves(s, t);
    case LoginSettles(b) => LoginSettlesKeeps(s, b); GrowsMoves(s, t);
    case LoginEnds => ViewKeeps(s, t); GrowsMoves(s, t);
    case LogoutSettles(d, had, past) => LogoutSettlesKeeps(s, d, had, past); GrowsMoves(s, t);
    case LogoutEnds(csrf) => LogoutEndsKeeps(s, csrf); GrowsMoves(s, t);
    case Protected401 => UnauthorizedKeeps(s); GrowsMoves(s, t);
    case RevalidateWanted(now) =>
      StepForward(s.runtime, NotifyRevalidate(now));
      QuietStep(s, t);
      GrowsMoves(s, t);
    case LoginStarts =>
      QuietStep(s, t);
      GrowsMoves(s, t);
    case LogoutStarts =>
      StepForward(s.runtime, AdvanceAccess);
      QuietStep(s, t);
      GrowsMoves(s, t);
    case Retry => ThenProbe(s, s.(view := s.view.(phase := Checking)), ForcedProbe, Initial); GrowsMoves(s, t);
    case Unmount =>
      StepForward(s.runtime, AdvanceAccess);
      QuietStep(s, t);
      GrowsMoves(s, t);
    case _ => NoticedKeeps(s, e); GrowsMoves(s, t);
  }

  lemma {:induction false} RunKeeps(s: State, events: seq<SessionProbes.Event>)
    requires Sound(s)
    ensures Sound(RunAll(s, events))
  {
    hide Sound, Next, Moves;
    if events != [] {
      RunKeeps(s, events[..|events| - 1]);
      NextKeeps(RunAll(s, events[..|events| - 1]), events[|events| - 1]);
    }
  }

  lemma StartOk()
    ensures Sound(START)
  {
  }

  /**
   Over every run, outcomes are applied in the order the probes were started, none
   twice, each while its probe was the newest; focus, CSRF and live-connection
   probes only under the identity and generations they started with; and during a
   sign-out only the sign-out's own probe.
   */
  lemma ProbesApplyInOrder(events: seq<SessionProbes.Event>)
    ensures
      var applied := RunAll(START, events).probes.applied;
      InOrder(applied) && forall i :: 0 <= i < |applied| ==> EntryOk(applied[i])
  {
    hide Next;
    StartOk();
    RunKeeps(START, events);
  }

  /** Over every run, while a sign-out owns the page nothing protected is shown or connected. */
  lemma SignOutHidesEverything(events: seq<SessionProbes.Event>)
    ensures
      var s := RunAll(START, events);
      s.flags.logoutInFlight ==> !s.view.live && s.view.phase != Authenticated
  {
    hide Next;
    StartOk();
    RunKeeps(START, events);
  }

  /** No probe in flight: everything applied later comes from a probe started later. */
  lemma {:induction false} StaleProbesStaySilent(s: State, events: seq<SessionProbes.Event>)
    requires Sound(s) && s.probes.active.None?
    ensures
      var t := RunAll(s, events);
      && t.probes.sequence >= s.probes.sequence
      && (t.probes.active.Some? ==> t.probes.active.value.sequence > s.probes.sequence)
      && |t.probes.applied| >= |s.probes.applied|
      && t.probes.applied[..|s.probes.applied|] == s.probes.applied
      && forall i :: |s.probes.applied| <= i < |t.probes.applied| ==>
           t.probes.applied[i].probe.handle.sequence > s.probes.sequence
  {
    hide Next, Sound;
    if events != [] {
      var before := RunAll(s, events[..|events| - 1]);
      StaleProbesStaySilent(s, events[..|events| - 1]);
      RunKeeps(s, events[..|events| - 1]);
      NextKeeps(before, events[|events| - 1]);
    }
  }

  /** Locking leaves nobody signed in, no token, and nothing in flight that could still act. */
  lemma LockLeavesNothing(s: State, next: Phase, reason: Reason, events: seq<SessionProbes.Event>)
    requires Sound(s) && next != Authenticated
    ensures
      var t := LockUi(s, next, reason);
      && t.runtime.identity == NOBODY && t.transport.csrfToken.None? && !t.transport.sessionActive && !t.view.live
      && t.runtime.accessGeneration > s.runtime.accessGeneration
      && (forall q :: q in t.probes.waiting ==> !IsCurrent(t, t.probes.waiting[q].handle))
      && var later := RunAll(t, events).probes.applied;
         forall i :: |s.probes.applied| <= i < |later| ==> later[i].probe.handle.sequence > t.probes.sequence > s.probes.sequence
  {
    hide Next, Sound, Cut;
    var t := LockUi(s, next, reason);
    LogoutOkFrom(s);
    CutForward(s.runtime);
    LockUiKeeps(s, next, reason);
    StaleProbesStaySilent(t, events);
  }

  /** A background probe never supersedes a probe that owns a transition. */
  lemma BackgroundNeverSupersedes(s: State, kind: Kind, reason: Reason)
    requires Sound(s) && Stable(kind) && s.probes.active.Some? && !Stable(s.probes.active.value.kind)
    ensures StartProbe(s, kind, reason) == s
  {
  }

  /** Under an open transition, the background triggers leave the probe table alone in every reachable state. */
  lemma TransitionKeepsOwner(events: seq<SessionProbes.Event>, e: SessionProbes.Event)
    requires e.RevalidateFires? || e.FocusFires? || e.SseProbe? || e == LogoutEnds(true)
    ensures
      var s := RunAll(START, events);
      s.probes.active.Some? && !Stable(s.probes.active.value.kind) ==> Next(s, e).probes == s.probes
  {
    hide Next, Sound;
    StartOk();
    RunKeeps(START, events);
    TriggerKeepsOwner(RunAll(START, events), e);
  }

  lemma TriggerKeepsOwner(s: State, e: SessionProbes.Event)
    requires Sound(s) && (e.RevalidateFires? || e.FocusFires? || e.SseProbe? || e == LogoutEnds(true))
    ensures s.probes.active.Some? && !Stable(s.probes.active.value.kind) ==> Next(s, e).probes == s.probes
  {
    hide Issue;
  }
}
