/**
 Being shown as signed in with nobody signed in. The page can get there; this is
 exactly when, for every step and over every run.
 */
module SessionShown {
  import opened Basics
  import opened AuthState
  import opened SessionProbes
  import opened SessionSafety
  import opened SessionTheorems
  import opened SessionSignOut

  /** The page is shown as signed in although nobody is. */
  predicate Hollow(s: State) { s.view.phase == Authenticated && s.runtime.identity == NOBODY }

  /** The reply of a probe that may act. */
  predicate Acts(s: State, q: nat) { q in s.probes.waiting && IsCurrent(s, s.probes.waiting[q].handle) }

  /**
   A session is taken over whose expiry is already behind us. The parser of the reply refuses an expiry that is
   past when it reads the clock (sessionStatus.ts:133-136), which is `IncompleteSession` here; so this is only a
   session that runs out between that reading of the clock and the one that arms the timer.
   */
  predicate LateSession(s: State, e: SessionProbes.Event) {
    && e.ProbeReply? && Acts(s, e.sequence) && e.outcome.Answer?
    && s.probes.waiting[e.sequence].handle.kind != LogoutProbe
    && e.outcome.status.authenticated && e.outcome.status.via == Some(SessionAuth) && e.outcome.status.past
  }

  /** A failed or refuted sign-out gives the page back. */
  predicate GivesBack(s: State, e: SessionProbes.Event) {
    match e
    case ProbeReply(q, Answer(st)) => Acts(s, q) && s.probes.waiting[q].handle.kind == LogoutProbe && st.authenticated
    case ProbeReply(q, Failure(f, _)) =>
      && Acts(s, q)
      && var k := s.probes.waiting[q].handle.kind;
         || (k == LogoutProbe && f == Unreachable)
         || (k == CsrfRefresh && s.view.shown == SigningOut && f in {Unreachable, OtherApi, Foreign})
    case LogoutSettles(d, _, _) => s.flags.deletes > 0 && (d == DeleteUnreachable || d == DeleteOther)
    case _ => false
  }

  /** The expiry the step reads is already behind us. */
  predicate Late(s: State, e: SessionProbes.Event) {
    match e
    case ProbeReply(_, Answer(st)) => HasExpiry(s) && st.past
    case ProbeReply(_, Failure(_, past)) => HasExpiry(s) && past
    case LogoutSettles(_, had, past) => (had || HasExpiry(s)) && past
    case _ => false
  }

  /** The page is given back with nobody signed in, or with a session that runs out on the spot. */
  predicate EmptyReturn(s: State, e: SessionProbes.Event) {
    GivesBack(s, e) && !s.flags.unauthorizedDuringLogout && (s.runtime.identity == NOBODY || Late(s, e))
  }

  /* ---------------- which pieces can do it ---------------- */

  /** Neither the phase nor who is signed in changes to make a page hollow. */
  ghost predicate StaysFull(s: State, t: State) {
    && (t.view.phase == Authenticated ==> s.view.phase == Authenticated && t.runtime.identity == s.runtime.identity)
  }

  lemma StartProbeFull(s: State, kind: Kind, reason: Reason)
    ensures StartProbe(s, kind, reason).view == s.view && StartProbe(s, kind, reason).runtime == s.runtime
  {
  }

  lemma LockUiFull(s: State, next: Phase, reason: Reason)
    ensures LockUi(s, next, reason).view.phase == next
  {
    hide Cut;
  }

  lemma ExpireEmpties(s: State)
    requires Consistent(s.runtime)
    ensures Expire(s).runtime.identity == NOBODY && Expire(s).view.phase == Locked
  {
    hide StartProbe, Cut;
    CutForward(s.runtime);
    var locked := LockUi(s, Locked, Expired);
    StartProbeFull(locked.(view := locked.view.(shown := Locked)), ForcedProbe, Expired);
  }

  /**
   Giving the page back shows it as signed in, unless a lost session was put off. Somebody is
   signed in then exactly when somebody was and the session had not run out.
   */
  lemma RestoreSignsInExactly(s: State, expires: bool, past: bool)
    requires Sound(s)
    ensures
      var t := Restore(s, expires, past);
      && (t.view.phase == Authenticated <==> !s.flags.unauthorizedDuringLogout)
      && (Hollow(t) <==> !s.flags.unauthorizedDuringLogout && (s.runtime.identity == NOBODY || (expires && past)))
  {
    hide Expire, StartProbe;
    LogoutOkFrom(s);
    var released := s.(flags := s.flags.(logoutInFlight := false));
    ExpireEmpties(released);
    StartProbeFull(
      released.(flags := released.flags.(unauthorizedDuringLogout := false),
                timers := released.timers.(expiry := false), view := View(Checking, Checking, Unauthorized, false)),
      ForcedProbe, Unauthorized);
  }

  /** Taking over a status signs in exactly an authenticated one whose session has not run out. */
  lemma ApplyStatusSignsInExactly(s: State, st: Status, reason: Reason)
    requires Consistent(s.runtime)
    ensures
      var t := ApplyStatus(s, st, reason);
      && (t.view.phase == Authenticated <==> st.authenticated && st.via.Some?)
      && (Hollow(t) <==> st.authenticated && st.via == Some(SessionAuth) && st.past)
  {
    hide LockUi, Expire, NoCredentials, TransportStep;
    forall next, r ensures LockUi(s, next, r).view.phase == next { LockUiFull(s, next, r); }
    if st.via.Some? { ExpireEmpties(InstallIdentity(s, st, st.via.value)); }
  }

  lemma OutcomeHollow(s: State, p: Pending, o: Outcome)
    requires Sound(s) && (s.view.phase == Authenticated ==> s.runtime.identity != NOBODY)
    requires p.handle.kind == LoginProbe ==> !s.flags.bfcacheSuspended
    ensures
      var k := p.handle.kind;
      Hollow(ApplyOutcome(s, p, o)) <==>
        match o
        case Answer(st) =>
          if k == LogoutProbe
          then st.authenticated && !s.flags.unauthorizedDuringLogout && (s.runtime.identity == NOBODY || (HasExpiry(s) && st.past))
          else st.authenticated && st.via == Some(SessionAuth) && st.past
        case Failure(f, past) =>
          && ((k == LogoutProbe && f == Unreachable) ||
              (k == CsrfRefresh && s.view.shown == SigningOut && f in {Unreachable, OtherApi, Foreign}))
          && !s.flags.unauthorizedDuringLogout && (s.runtime.identity == NOBODY || (HasExpiry(s) && past))
  {
    hide LockUi, ApplyStatus, Restore, Sound;
    LogoutOkFrom(s);
    forall next, r ensures LockUi(s, next, r).view.phase == next { LockUiFull(s, next, r); }
    match o
    case Answer(st) =>
      ApplyStatusSignsInExactly(s, st, Initial);
      ApplyStatusSignsInExactly(s, st, p.reason);
      RestoreSignsInExactly(s, HasExpiry(s), st.past);
    case Failure(f, past) => RestoreSignsInExactly(s, HasExpiry(s), past);
  }

  lemma SettleHollow(s: State, q: nat, o: Outcome)
    requires Sound(s) && !Hollow(s)
    ensures
      var e := SessionProbes.Event.ProbeReply(q, o);
      Hollow(Settle(s, q, o)) <==> LateSession(s, e) || EmptyReturn(s, e)
  {
    hide ApplyOutcome;
    if q in s.probes.waiting {
      var p := s.probes.waiting[q];
      if IsCurrent(s, p.handle) {
        var entry := Applied(p, s.probes.sequence, s.runtime, s.flags.logoutInFlight);
        LoggedOk(s, q, entry);
        OutcomeHollow(
          s.(probes := s.probes.(
               waiting := s.probes.waiting - {q}, finishing := s.probes.finishing + {q},
               applied := s.probes.applied + [entry])),
          p, o);
      }
    }
  }

  lemma NoticedFull(s: State, e: SessionProbes.Event)
    requires Consistent(s.runtime)
    ensures StaysFull(s, Noticed(s, e))
  {
    hide StartProbe, Expire;
    forall t: State, kind, reason ensures StartProbe(t, kind, reason).view == t.view && StartProbe(t, kind, reason).runtime == t.runtime {
      StartProbeFull(t, kind, reason);
    }
    ExpireEmpties(s);
    ExpireEmpties(s.(timers := s.timers.(expiry := false)));
  }

  lemma SettleLogoutHollow(s: State, d: Deletion, had: bool, past: bool)
    requires Sound(s) && !Hollow(s)
    ensures Hollow(SettleLogout(s, d, had, past)) <==>
              && (d == DeleteUnreachable || d == DeleteOther) && !s.flags.unauthorizedDuringLogout
              && (s.runtime.identity == NOBODY || ((had || HasExpiry(s)) && past))
  {
    hide LockUi, Restore, StartProbe, Sound;
    LockUiFull(s, Locked, ProtocolFault);
    StartProbeFull(s, LogoutProbe, LoggedOut);
    RestoreSignsInExactly(s, had || HasExpiry(s), past);
  }

  lemma LogoutSettlesHollow(s: State, d: Deletion, had: bool, past: bool)
    requires Sound(s) && !Hollow(s)
    ensures Hollow(Next(s, LogoutSettles(d, had, past))) <==> EmptyReturn(s, LogoutSettles(d, had, past))
  {
    hide SettleLogout, Sound, StartProbe, Settle, Finish, SettleLogin, HandleUnauthorized, Noticed, Step, NoCredentials;
    if s.flags.deletes > 0 {
      var f := s.flags;
      var t :=
        s.(flags := f.(deletes := f.deletes - 1, ending := if d == DeleteCsrf then f.ending else f.ending + 1,
                       endingCsrf := if d == DeleteCsrf then f.endingCsrf + 1 else f.endingCsrf));
      LogoutOkFrom(s);
      ViewKeeps(s, t);
      SettleLogoutHollow(t, d, had, past);
    }
  }

  lemma OthersFull(s: State, e: SessionProbes.Event)
    requires Sound(s) && !e.ProbeReply? && !e.LogoutSettles?
    ensures StaysFull(s, Next(s, e))
  {
    hide StartProbe, Finish, LockUi, Noticed, Sound, NoCredentials;
    LogoutOkFrom(s);
    forall t: State, kind, reason ensures StartProbe(t, kind, reason).view == t.view && StartProbe(t, kind, reason).runtime == t.runtime {
      StartProbeFull(t, kind, reason);
    }
    match e
    case LoginSettles(b) =>
      forall next, r ensures LockUi(s, next, r).view.phase == next { LockUiFull(s, next, r); }
    case ProbeEnds(q) => assert Finish(s, q).view == s.view && Finish(s, q).runtime == s.runtime by { FinishFull(s, q); }
    case Focused(_) => NoticedFull(s, e);
    case RevalidateFires => NoticedFull(s, e);
    case SseProbe => NoticedFull(s, e);
    case FocusFires => NoticedFull(s, e);
    case ExpiryFires => NoticedFull(s, e);
    case PageHide => NoticedFull(s, e);
    case PageShow(_, _) => NoticedFull(s, e);
    case _ =>
  }

  lemma FinishFull(s: State, q: nat)
    ensures Finish(s, q).view == s.view && Finish(s, q).runtime == s.runtime
  {
  }

  /* ---------------- every step, every run ---------------- */

  /** A step leaves the page hollow that was not, exactly when it takes over a late session or gives back an empty page. */
  lemma HollowExactly(s: State, e: SessionProbes.Event)
    requires Sound(s) && !Hollow(s)
    ensures Hollow(Next(s, e)) <==> LateSession(s, e) || EmptyReturn(s, e)
  {
    hide Next, Sound, Settle, Acts;
    match e
    case ProbeReply(q, o) =>
      SettleHollow(s, q, o);
      assert Next(s, e) == Settle(s, q, o) by { ReplyIs(s, q, o); }
    case LogoutSettles(d, had, past) => LogoutSettlesHollow(s, d, had, past);
    case _ => OthersFull(s, e);
  }

  lemma ReplyIs(s: State, q: nat, o: Outcome)
    ensures Next(s, SessionProbes.Event.ProbeReply(q, o)) == Settle(s, q, o)
  {
    hide Settle;
  }

  /** The page became hollow at step `i` of the run, and has been since. */
  ghost predicate HollowSince(events: seq<SessionProbes.Event>, i: nat) {
    && i < |events|
    && var s := RunAll(START, events[..i]);
       && !Hollow(s) && (LateSession(s, events[i]) || EmptyReturn(s, events[i]))
       && forall j :: i < j <= |events| ==> Hollow(RunAll(START, events[..j]))
  }

  /** Over every run: the page is hollow exactly if such a step made it so and it has stayed so. */
  lemma {:induction false} HollowOverRuns(events: seq<SessionProbes.Event>)
    ensures Hollow(RunAll(START, events)) <==> exists i :: HollowSince(events, i)
  {
    hide Next, Hollow, LateSession, EmptyReturn, Sound;
    if events == [] {
      assert !Hollow(START) by { NotYet(); }
    } else {
      var init, e := events[..|events| - 1], events[|events| - 1];
      var s := RunAll(START, init);
      assert RunAll(START, events) == Next(s, e);
      StartOk();
      RunKeeps(START, init);
      HollowOverRuns(init);
      assert events[..|events|] == events;
      if Hollow(RunAll(START, events)) {
        if Hollow(s) {
          var i :| HollowSince(init, i);
          Longer(events, i);
        } else {
          HollowExactly(s, e);
          assert HollowSince(events, |init|);
        }
      }
    }
  }

  lemma NotYet()
    ensures !Hollow(START)
  {
  }

  lemma Longer(events: seq<SessionProbes.Event>, i: nat)
    requires events != [] && HollowSince(events[..|events| - 1], i) && Hollow(RunAll(START, events))
    ensures HollowSince(events, i)
  {
    hide Next, Hollow, LateSession, EmptyReturn, RunAll;
    var init := events[..|events| - 1];
    assert init[..i] == events[..i];
    forall j | i < j <= |events| ensures Hollow(RunAll(START, events[..j])) {
      if j < |events| {
        assert init[..j] == events[..j];
      } else {
        assert events[..j] == events;
      }
    }
  }

  /** No session runs out between the two readings of the clock. */
  ghost predicate NoneLate(events: seq<SessionProbes.Event>) {
    forall i :: 0 <= i < |events| ==> !LateSession(RunAll(START, events[..i]), events[i])
  }

  /** A sign-out gave the page back empty at step `i`, and it has been hollow since. */
  ghost predicate ReturnedEmpty(events: seq<SessionProbes.Event>, i: nat) {
    HollowSince(events, i) && EmptyReturn(RunAll(START, events[..i]), events[i])
  }

  /** Then a hollow page is one that a sign-out gave back empty. */
  lemma OnlyReturnsHollow(events: seq<SessionProbes.Event>)
    requires NoneLate(events) && Hollow(RunAll(START, events))
    ensures exists i: nat :: ReturnedEmpty(events, i)
  {
    hide RunAll, Hollow, LateSession, EmptyReturn;
    HollowOverRuns(events);
    var i: nat :| HollowSince(events, i);
    assert ReturnedEmpty(events, i);
  }

  /** Somebody signs in and out; the session runs out while Core cannot be reached, and the page is given back. */
  const FAILED_SIGN_OUT: seq<SessionProbes.Event> := [
    Mount, ProbeReply(2, Answer(FRESH_SESSION)), LogoutStarts, LogoutSettles(DeleteUnreachable, true, true)]

  /** Such a run ends shown as signed in and connected with nobody signed in, and no session in it came late. */
  lemma HollowHappens()
    ensures
      var s := RunAll(START, FAILED_SIGN_OUT);
      Hollow(s) && s.view.live && NoneLate(FAILED_SIGN_OUT)
  {
    hide RunAll, Next, Sound;
    var m := Next(START, Mount);
    var i := Next(m, FAILED_SIGN_OUT[1]);
    var a := Next(i, LogoutStarts);
    assert RunAll(START, FAILED_SIGN_OUT[..0]) == START by { NoEvents(START, FAILED_SIGN_OUT[..0]); }
    RunStep(START, FAILED_SIGN_OUT, 0, START);
    RunStep(START, FAILED_SIGN_OUT, 1, m);
    RunStep(START, FAILED_SIGN_OUT, 2, i);
    RunStep(START, FAILED_SIGN_OUT, 3, a);
    assert FAILED_SIGN_OUT[..4] == FAILED_SIGN_OUT;
    SignsIn();
    SignsOut(i);
    SigningOutShown(i);
    StartOk();
    RunKeeps(START, FAILED_SIGN_OUT[..3]);
    HollowExactly(a, FAILED_SIGN_OUT[3]);
    GivesBackConnected(a);
  }

  lemma SigningOutShown(s: State)
    requires !s.flags.logoutInFlight
    ensures Next(s, LogoutStarts).view.phase == SigningOut
  {
  }

  lemma GivesBackConnected(s: State)
    requires s.flags.deletes > 0 && !s.flags.unauthorizedDuringLogout
    ensures Next(s, LogoutSettles(DeleteUnreachable, true, true)).view.live
  {
    hide Expire;
  }
}
