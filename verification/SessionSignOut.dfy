/**
 Signing out. One sign-out owns the page at a time because its buttons are disabled
 meanwhile.
 */
module SessionSignOut {
  import opened Basics
  import opened AuthState
  import opened SessionProbes
  import opened SessionSafety
  import opened SessionTheorems

  /* ---------------- one sign-out at a time ---------------- */

  /** Calls of `logout` that have not returned. */
  function Calls(f: Flags): nat { f.deletes + f.ending + f.endingCsrf }

  /** No reply to a sign-out's own probe could act. */
  ghost predicate NoLogoutProbe(p: Probes) {
    forall q :: q in p.waiting && p.waiting[q].handle.kind == LogoutProbe ==>
      p.active.None? || p.active.value.sequence != q
  }

  /** At most one sign-out is under way; until Core has answered it, it owns the page. */
  ghost predicate OneSignOut(s: State) {
    && Calls(s.flags) == (if s.flags.logoutBusy then 1 else 0)
    && (s.flags.logoutInFlight ==> s.flags.logoutBusy)
    && (s.flags.deletes > 0 ==> s.flags.logoutInFlight && NoLogoutProbe(s.probes))
  }

  /** The calls under way are the same, and a page nobody owned is still nobody's. */
  ghost predicate SameCalls(s: State, t: State) {
    && t.flags.deletes == s.flags.deletes && t.flags.ending == s.flags.ending && t.flags.endingCsrf == s.flags.endingCsrf
    && t.flags.logoutBusy == s.flags.logoutBusy && (t.flags.logoutInFlight ==> s.flags.logoutInFlight)
  }

  /** A sign-out that waits for Core owns the page, and no reply could take it away. */
  ghost predicate Owns(s: State) { s.flags.deletes > 0 && s.flags.logoutInFlight && NoLogoutProbe(s.probes) }

  ghost predicate LeavesSignOut(s: State, t: State) { SameCalls(s, t) && (Owns(s) ==> Owns(t)) }

  lemma StartProbeLeaves(s: State, kind: Kind, reason: Reason)
    ensures SameCalls(s, StartProbe(s, kind, reason))
    ensures kind != LogoutProbe ==> LeavesSignOut(s, StartProbe(s, kind, reason))
  {
  }

  lemma LockUiLeaves(s: State, next: Phase, reason: Reason)
    ensures LeavesSignOut(s, LockUi(s, next, reason))
  {
    hide Cut;
  }

  lemma Twice(s: State, t: State, u: State)
    requires LeavesSignOut(s, t) && LeavesSignOut(t, u)
    ensures LeavesSignOut(s, u)
  {
  }

  lemma ExpireLeaves(s: State)
    ensures LeavesSignOut(s, Expire(s))
  {
    hide LockUi, StartProbe;
    var locked := LockUi(s, Locked, Expired);
    var shown := locked.(view := locked.view.(shown := Locked));
    LockUiLeaves(s, Locked, Expired);
    StartProbeLeaves(shown, ForcedProbe, Expired);
    Twice(s, shown, Expire(s));
  }

  lemma RestoreSameCalls(s: State, expires: bool, past: bool)
    ensures SameCalls(s, Restore(s, expires, past)) && !Restore(s, expires, past).flags.logoutInFlight
  {
    hide Expire, StartProbe;
    var released := s.(flags := s.flags.(logoutInFlight := false));
    ExpireLeaves(released);
    StartProbeLeaves(
      released.(flags := released.flags.(unauthorizedDuringLogout := false),
                timers := released.timers.(expiry := false), view := View(Checking, Checking, Unauthorized, false)),
      ForcedProbe, Unauthorized);
  }

  lemma ApplyStatusSameCalls(s: State, st: Status, reason: Reason)
    ensures SameCalls(s, ApplyStatus(s, st, reason))
  {
    hide LockUi, Expire, Step, TransportStep, NoCredentials;
    forall next, r ensures LeavesSignOut(s, LockUi(s, next, r)) { LockUiLeaves(s, next, r); }
    if st.via.Some? { ExpireLeaves(InstallIdentity(s, st, st.via.value)); }
  }

  lemma ApplyOutcomeSameCalls(s: State, p: Pending, o: Outcome)
    ensures SameCalls(s, ApplyOutcome(s, p, o))
  {
    hide LockUi, ApplyStatus, Restore;
    forall next, r ensures LeavesSignOut(s, LockUi(s, next, r)) { LockUiLeaves(s, next, r); }
    forall expires, past ensures SameCalls(s, Restore(s, expires, past)) { RestoreSameCalls(s, expires, past); }
    if o.Answer? {
      ApplyStatusSameCalls(s, o.status, Initial);
      ApplyStatusSameCalls(s, o.status, p.reason);
    }
  }

  /** While a sign-out waits for Core, no other reply is acted on. */
  lemma SettleLeaves(s: State, q: nat, o: Outcome)
    requires WaitingOk(s.runtime, s.probes)
    ensures LeavesSignOut(s, Settle(s, q, o))
  {
    hide ApplyOutcome;
    if q in s.probes.waiting {
      var p := s.probes.waiting[q];
      var arrived := s.(probes := s.probes.(waiting := s.probes.waiting - {q}, finishing := s.probes.finishing + {q}));
      var entry := Applied(p, s.probes.sequence, s.runtime, s.flags.logoutInFlight);
      ApplyOutcomeSameCalls(arrived.(probes := arrived.probes.(applied := s.probes.applied + [entry])), p, o);
    }
  }

  lemma NoticedLeaves(s: State, e: SessionProbes.Event)
    ensures LeavesSignOut(s, Noticed(s, e))
  {
    hide StartProbe, Expire, Step;
    forall t: State, kind, reason | kind != LogoutProbe ensures LeavesSignOut(t, StartProbe(t, kind, reason)) {
      StartProbeLeaves(t, kind, reason);
    }
    forall t: State ensures LeavesSignOut(t, Expire(t)) { ExpireLeaves(t); }
  }

  lemma LoginSettlesLeaves(s: State, b: Bootstrap)
    ensures LeavesSignOut(s, Next(s, LoginSettles(b)))
  {
    hide StartProbe, LockUi;
    StartProbeLeaves(s, LoginProbe, Initial);
    forall next, r ensures LeavesSignOut(s, LockUi(s, next, r)) { LockUiLeaves(s, next, r); }
  }

  lemma UnauthorizedLeaves(s: State)
    ensures LeavesSignOut(s, Next(s, Protected401))
  {
    hide StartProbe, Step;
    forall t: State ensures LeavesSignOut(t, StartProbe(t, UnauthorizedProbe, Unauthorized)) {
      StartProbeLeaves(t, UnauthorizedProbe, Unauthorized);
    }
  }

  /** Nothing but a sign-out's own steps touches its claim to the page. */
  lemma OthersLeave(s: State, e: SessionProbes.Event)
    requires Sound(s)
    requires !e.LogoutStarts? && !e.LogoutSettles? && !e.LogoutEnds?
    ensures LeavesSignOut(s, Next(s, e))
  {
    hide StartProbe, Settle, Finish, SettleLogin, HandleUnauthorized, Noticed, Step, NoCredentials;
    match e
    case ProbeReply(q, o) => SettleLeaves(s, q, o);
    case ProbeEnds(q) => FinishLeaves(s, q);
    case Mount => StartProbeLeaves(s.(flags := s.flags.(mounted := true)), InitialProbe, Initial);
    case LoginSettles(b) => LoginSettlesLeaves(s, b);
    case Protected401 => UnauthorizedLeaves(s);
    case Retry => StartProbeLeaves(s.(view := s.view.(phase := Checking)), ForcedProbe, Initial);
    case Render =>
    case LoginStarts =>
    case LoginEnds =>
    case RevalidateWanted(now) =>
    case Unmount =>
    case _ => NoticedLeaves(s, e);
  }

  lemma FinishLeaves(s: State, q: nat)
    ensures LeavesSignOut(s, Finish(s, q))
  {
  }

  lemma SettleLogoutSameCalls(s: State, d: Deletion, hadExpiry: bool, past: bool)
    ensures SameCalls(s, SettleLogout(s, d, hadExpiry, past))
  {
    hide StartProbe, LockUi, Restore;
    StartProbeLeaves(s, LogoutProbe, LoggedOut);
    LockUiLeaves(s, Locked, ProtocolFault);
    RestoreSameCalls(s, hadExpiry || HasExpiry(s), past);
  }

  /** The buttons are disabled while a sign-out is under way. */
  predicate Offered(s: State, e: SessionProbes.Event) { e.LogoutStarts? ==> !s.flags.logoutBusy }

  lemma StartKeepsOne(s: State)
    requires OneSignOut(s) && !s.flags.logoutBusy
    ensures OneSignOut(Next(s, LogoutStarts))
  {
    hide Next;
    SignsOut(s);
  }

  lemma Answers(s: State, d: Deletion, had: bool, past: bool)
    requires s.flags.deletes > 0
    ensures
      var f, g := s.flags, Next(s, LogoutSettles(d, had, past)).flags;
      && g.deletes == f.deletes - 1 && Calls(g) == Calls(f) && g.logoutBusy == f.logoutBusy
      && (g.logoutInFlight ==> f.logoutInFlight)
  {
    hide SettleLogout, StartProbe, Settle, Finish, SettleLogin, HandleUnauthorized, Noticed, Step, NoCredentials;
    var f := s.flags;
    SettleLogoutSameCalls(
      s.(flags := f.(deletes := f.deletes - 1, ending := if d == DeleteCsrf then f.ending else f.ending + 1,
                     endingCsrf := if d == DeleteCsrf then f.endingCsrf + 1 else f.endingCsrf)),
      d, had, past);
  }

  lemma AnswerKeepsOne(s: State, d: Deletion, had: bool, past: bool)
    requires OneSignOut(s)
    ensures OneSignOut(Next(s, LogoutSettles(d, had, past)))
  {
    hide Next, NoLogoutProbe;
    if s.flags.deletes > 0 {
      Answers(s, d, had, past);
    } else {
      NothingWaits(s, d, had, past);
    }
  }

  lemma NothingWaits(s: State, d: Deletion, had: bool, past: bool)
    requires s.flags.deletes == 0
    ensures Next(s, LogoutSettles(d, had, past)) == s
  {
    hide SettleLogout;
  }

  lemma Ends(s: State, csrf: bool)
    ensures
      var f := s.flags;
      Next(s, LogoutEnds(csrf)).flags ==
        if csrf && f.endingCsrf > 0 then f.(logoutInFlight := false, logoutBusy := false, endingCsrf := f.endingCsrf - 1)
        else if !csrf && f.ending > 0 then f.(logoutInFlight := false, logoutBusy := false, ending := f.ending - 1)
        else f
    ensures (if csrf then s.flags.endingCsrf else s.flags.ending) == 0 ==> Next(s, LogoutEnds(csrf)) == s
  {
    hide Issue, Owned;
    var f := s.flags;
    if csrf && f.endingCsrf > 0 {
      IssueView(
        s.(flags := f.(logoutInFlight := false, logoutBusy := false, endingCsrf := f.endingCsrf - 1)), CsrfRefresh, Initial);
    }
  }

  lemma EndKeepsOne(s: State, csrf: bool)
    requires OneSignOut(s)
    ensures OneSignOut(Next(s, LogoutEnds(csrf)))
  {
    hide Next, NoLogoutProbe;
    Ends(s, csrf);
  }

  lemma LeavesKeepsOne(s: State, t: State)
    requires OneSignOut(s) && LeavesSignOut(s, t)
    ensures OneSignOut(t)
  {
    hide NoLogoutProbe;
  }

  lemma OneSignOutKept(s: State, e: SessionProbes.Event)
    requires Sound(s) && OneSignOut(s) && Offered(s, e)
    ensures OneSignOut(Next(s, e))
  {
    hide Next, Sound, OneSignOut, LeavesSignOut;
    match e
    case LogoutStarts => StartKeepsOne(s);
    case LogoutSettles(d, had, past) => AnswerKeepsOne(s, d, had, past);
    case LogoutEnds(csrf) => EndKeepsOne(s, csrf);
    case _ =>
      OthersLeave(s, e);
      LeavesKeepsOne(s, Next(s, e));
  }

  /** A run in which every sign-out is started by a button that is not disabled. */
  ghost predicate ByButtons(events: seq<SessionProbes.Event>) {
    forall i :: 0 <= i < |events| ==> Offered(RunAll(START, events[..i]), events[i])
  }

  lemma {:induction false} OneSignOutHolds(events: seq<SessionProbes.Event>)
    requires ByButtons(events)
    ensures OneSignOut(RunAll(START, events))
  {
    hide Next, OneSignOut, Sound;
    if events == [] {
      NothingStarted();
    } else {
      var init := events[..|events| - 1];
      assert ByButtons(init) by {
        forall i | 0 <= i < |init| ensures Offered(RunAll(START, init[..i]), init[i]) {
          assert init[..i] == events[..i];
        }
      }
      OneSignOutHolds(init);
      StartOk();
      RunKeeps(START, init);
      assert Offered(RunAll(START, init), events[|init|]);
      OneSignOutKept(RunAll(START, init), events[|init|]);
    }
  }

  lemma NothingStarted()
    ensures OneSignOut(START)
  {
  }

  /**
   Over every run whose sign-outs come from the buttons, at most one is under way, and from its first
   step until Core has answered its request the page is its own and shows nothing protected.
   */
  lemma SignOutOwnsPage(events: seq<SessionProbes.Event>)
    requires ByButtons(events)
    ensures
      var f, view := RunAll(START, events).flags, RunAll(START, events).view;
      && f.deletes + f.ending + f.endingCsrf <= 1
      && (f.deletes > 0 ==> f.logoutInFlight && !view.live && view.phase != Authenticated)
      && (f.logoutInFlight ==> f.deletes + f.ending + f.endingCsrf == 1)
  {
    hide RunAll;
    OneSignOutHolds(events);
    SignOutHidesEverything(events);
  }

  /**
   Without the buttons' guard: the end of a call takes the page from a sign-out that still waits for Core
   exactly when it is the end of another call.
   */
  lemma EndReleasesExactly(s: State, csrf: bool)
    requires s.flags.deletes > 0 && s.flags.logoutInFlight
    ensures !Next(s, LogoutEnds(csrf)).flags.logoutInFlight <==> (if csrf then s.flags.endingCsrf else s.flags.ending) > 0
  {
    hide Next;
    Ends(s, csrf);
  }

  /* ---------------- what the guard is for ---------------- */

  const FRESH_SESSION := Status(true, Some(SessionAuth), true, false, "2030-01-01T00:00:00Z", "token", false)

  /**
   Somebody signs in and out; Core cannot be reached, and a lost session was heard of meanwhile, so the page
   asks Core again before the call returns. A second sign-out starts there, and then the first call returns.
   */
  const OVERLAP: seq<SessionProbes.Event> := [
    Mount, ProbeReply(2, Answer(FRESH_SESSION)), LogoutStarts, Protected401, LogoutSettles(DeleteUnreachable, true, false),
    LogoutStarts, LogoutEnds(false)]

  /** No button would have started the second sign-out, and it loses the page while it waits for Core. */
  lemma WithoutTheGuard()
    ensures
      var s, t := RunAll(START, OVERLAP[..5]), RunAll(START, OVERLAP);
      && !Offered(s, OVERLAP[5])
      && t.flags.deletes == 1 && !t.flags.logoutInFlight
  {
    hide RunAll, Next;
    var m := Next(START, Mount);
    var i := Next(m, OVERLAP[1]);
    var a := Next(i, LogoutStarts);
    var b := Next(a, Protected401);
    var c := Next(b, OVERLAP[4]);
    var d := Next(c, LogoutStarts);
    assert RunAll(START, OVERLAP[..0]) == START by { NoEvents(START, OVERLAP[..0]); }
    RunStep(START, OVERLAP, 0, START);
    RunStep(START, OVERLAP, 1, m);
    RunStep(START, OVERLAP, 2, i);
    RunStep(START, OVERLAP, 3, a);
    RunStep(START, OVERLAP, 4, b);
    RunStep(START, OVERLAP, 5, c);
    RunStep(START, OVERLAP, 6, d);
    assert OVERLAP[..7] == OVERLAP;
    SignsIn();
    SignsOut(i);
    Hears401(a);
    GivesUp(b);
    SignsOut(c);
    Ends(d, false);
  }

  lemma RunStep(s: State, events: seq<SessionProbes.Event>, n: nat, t: State)
    requires n < |events| && RunAll(s, events[..n]) == t
    ensures RunAll(s, events[..n + 1]) == Next(t, events[n])
  {
    hide Next;
    assert events[..n + 1][..n] == events[..n];
  }

  lemma NoEvents(s: State, events: seq<SessionProbes.Event>)
    requires events == []
    ensures RunAll(s, events) == s
  {
  }

  lemma SignsIn()
    ensures Next(Next(START, Mount), ProbeReply(2, Answer(FRESH_SESSION))).flags == START.flags.(mounted := true)
  {
    hide Step, TransportStep;
    var m := Next(START, Mount);
    assert m.probes.sequence == 2 && IsCurrent(m, m.probes.waiting[2].handle);
  }

  lemma SignsOut(s: State)
    requires !s.flags.logoutInFlight
    ensures
      var t := Next(s, LogoutStarts);
      && t.flags == s.flags.(logoutInFlight := true, logoutBusy := true, deletes := s.flags.deletes + 1)
      && t.probes.active.None? && t.runtime.notifiedFor.None?
  {
  }

  lemma Hears401(s: State)
    requires s.flags.logoutInFlight && s.flags.mounted && s.runtime.notifiedFor.None?
    ensures Next(s, Protected401).flags == s.flags.(unauthorizedDuringLogout := true)
  {
  }

  lemma GivesUp(s: State)
    requires s.flags.unauthorizedDuringLogout && s.flags.deletes > 0
    ensures
      Next(s, LogoutSettles(DeleteUnreachable, true, false)).flags ==
      s.flags.(deletes := s.flags.deletes - 1, ending := s.flags.ending + 1, logoutInFlight := false,
               unauthorizedDuringLogout := false)
  {
  }
}
