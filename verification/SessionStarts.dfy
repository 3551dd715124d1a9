/**
 Which probe each trigger starts, and what a sign-in or sign-out that Core has answered
 shows before any probe.
 */
module SessionStarts {
  import opened Basics
  import opened AuthState
  import opened SessionProbes
  import opened SessionSafety
  import opened SessionTheorems
  import opened SessionOutage

  /** A new probe is the active one, bound to how things stand, and nothing started before may act any more. */
  ghost predicate Starts(s: State, t: State, kind: Kind, reason: Reason) {
    && t.probes.sequence > s.probes.sequence
    && t.probes.active == Some(Handle(t.probes.sequence, t.runtime.identityGeneration, t.runtime.accessGeneration, kind))
    && t.probes.sequence in t.probes.waiting
    && t.probes.waiting[t.probes.sequence] == Pending(t.probes.active.value, reason, t.runtime.identity)
    && (kind == FocusProbe ==> t.probes.focusRun == Some(t.probes.sequence))
    && forall q :: q in s.probes.waiting ==> !IsCurrent(t, s.probes.waiting[q].handle)
  }

  /** A probe that owns a transition takes over from any other, unless a sign-out owns the page. */
  lemma TransitionSupersedes(s: State, kind: Kind, reason: Reason)
    requires Sound(s) && !Stable(kind) && (!s.flags.logoutInFlight || kind == LogoutProbe)
    ensures Starts(s, StartProbe(s, kind, reason), kind, reason)
  {
  }

  /** A background probe starts where no transition owns the page; focus probes are not doubled. */
  lemma BackgroundStarts(s: State, kind: Kind, reason: Reason)
    requires Sound(s) && Stable(kind) && !s.flags.logoutInFlight && !Owned(s.probes) && !(kind == FocusProbe && FocusRuns(s))
    ensures Starts(s, StartProbe(s, kind, reason), kind, reason)
  {
  }

  /** While a focus probe of this access generation is active, coming back again starts no other. */
  lemma FocusIsNotDoubled(s: State, n: nat, reason: Reason)
    requires s.probes.focusRun.Some? && s.probes.active == Some(Handle(n, s.runtime.identityGeneration, s.runtime.accessGeneration, FocusProbe))
    ensures StartProbe(s, FocusProbe, reason) == s
  {
  }

  lemma StartsFrom(s: State, t: State, u: State, kind: Kind, reason: Reason)
    requires s.probes.sequence <= t.probes.sequence && s.probes.waiting == t.probes.waiting && Starts(t, u, kind, reason)
    ensures Starts(s, u, kind, reason)
  {
  }

  /** The background triggers that get through, and the probe each starts. */
  lemma TriggersStart(events: seq<SessionProbes.Event>)
    ensures
      var s := RunAll(START, events);
      s.flags.mounted && !s.flags.logoutInFlight && !Owned(s.probes) ==>
        && (s.timers.revalidate ==> Starts(s, Next(s, RevalidateFires), CsrfRefresh, Initial))
        && (s.view.shown == Authenticated && !s.flags.bfcacheSuspended ==>
              && Starts(s, Next(s, SseProbe), SseError, Unauthorized)
              && (s.timers.focus && !FocusRuns(s) ==> Starts(s, Next(s, FocusFires), FocusProbe, Initial)))
  {
    hide RunAll, StartProbe, Sound, Starts;
    StartOk();
    RunKeeps(START, events);
    var s := RunAll(START, events);
    if s.flags.mounted && !s.flags.logoutInFlight && !Owned(s.probes) {
      BackgroundFrom(s, s, SseError, Unauthorized);
      BackgroundFrom(s, s.(timers := s.timers.(revalidate := false)), CsrfRefresh, Initial);
      if !FocusRuns(s) { BackgroundFrom(s, s.(timers := s.timers.(focus := false)), FocusProbe, Initial); }
    }
  }

  lemma BackgroundFrom(s: State, t: State, kind: Kind, reason: Reason)
    requires Sound(s) && t == s.(timers := t.timers) && Stable(kind) && !s.flags.logoutInFlight && !Owned(s.probes)
    requires !(kind == FocusProbe && FocusRuns(s))
    ensures Starts(s, StartProbe(t, kind, reason), kind, reason)
  {
    hide StartProbe, Starts, Sound;
    SameSound(s, t);
    BackgroundStarts(t, kind, reason);
    StartsFrom(s, t, StartProbe(t, kind, reason), kind, reason);
  }

  lemma SameSound(s: State, t: State)
    requires Sound(s) && t == s.(timers := t.timers)
    ensures Sound(t)
  {
  }

  /** The transitions, and the probe each starts when no sign-out owns the page. */
  lemma TransitionsStart(events: seq<SessionProbes.Event>)
    ensures
      var s := RunAll(START, events);
      !s.flags.logoutInFlight ==>
        && Starts(s, Next(s, Mount), InitialProbe, Initial)
        && Starts(s, Next(s, Retry), ForcedProbe, Initial)
        && (s.flags.loginInFlight ==> Starts(s, Next(s, LoginSettles(Opened)), LoginProbe, Initial))
  {
    hide RunAll, StartProbe, Sound, Starts;
    StartOk();
    RunKeeps(START, events);
    var s := RunAll(START, events);
    if !s.flags.logoutInFlight {
      TransitionFrom(s, s.(flags := s.flags.(mounted := true)), InitialProbe, Initial);
      TransitionFrom(s, s.(view := s.view.(phase := Checking)), ForcedProbe, Initial);
      TransitionFrom(s, s, LoginProbe, Initial);
    }
  }

  /** A sign-out that Core carried out, or found nobody to sign out by, is confirmed by a probe of its own. */
  lemma SignOutIsConfirmed(events: seq<SessionProbes.Event>, d: Deletion, had: bool, past: bool)
    requires RunAll(START, events).flags.deletes > 0 && d in {Deleted, DeleteRefused401, DeleteStale}
    ensures
      var s := RunAll(START, events);
      Starts(s, Next(s, LogoutSettles(d, had, past)), LogoutProbe, LoggedOut)
  {
    hide RunAll, StartProbe, Sound, Starts, Restore, LockUi;
    StartOk();
    RunKeeps(START, events);
    var s := RunAll(START, events);
    var f := s.flags;
    TransitionFrom(s, s.(flags := f.(deletes := f.deletes - 1, ending := f.ending + 1)), LogoutProbe, LoggedOut);
  }

  lemma TransitionFrom(s: State, t: State, kind: Kind, reason: Reason)
    requires Sound(s) && t == s.(flags := t.flags, view := t.view) && !Stable(kind)
    requires t.flags.logoutInFlight == s.flags.logoutInFlight && (!s.flags.logoutInFlight || kind == LogoutProbe)
    requires t.view.live == s.view.live && (t.view.phase == Authenticated ==> s.view.phase == Authenticated)
    ensures Starts(s, StartProbe(t, kind, reason), kind, reason)
  {
    hide StartProbe, Starts;
    assert Sound(t);
    TransitionSupersedes(t, kind, reason);
    StartsFrom(s, t, StartProbe(t, kind, reason), kind, reason);
  }

  /* ---------------- answers before any probe ---------------- */

  /** The page still stands as it was, but for what it shows. */
  ghost predicate OnlyShows(s: State, t: State, phase: Phase, reason: Reason) {
    && t.view == s.view.(phase := phase, reason := reason)
    && t.runtime == s.runtime && t.transport == s.transport && t.probes == s.probes && t.timers == s.timers
  }

  /** A sign-in Core did not open: a refusal is only shown, everything else locks the page; the button works again. */
  lemma RefusedSignIn(s: State, b: Bootstrap)
    requires Consistent(s.runtime) && TokenHeld(s)
    requires s.flags.loginInFlight && b != Opened
    ensures
      var t := Next(s, LoginSettles(b));
      && !t.flags.loginInFlight
      && match b
         case TokenRefused => OnlyShows(s, t, Locked, Unauthorized)
         case OtherRefusal => OnlyShows(s, t, Locked, Unauthorized)
         case OriginRefused => OnlyShows(s, t, Locked, OriginRejected)
         case NotConfigured => LockedAs(s, t, SetupRequired, Configuration)
         case CoreUnreachable => LockedAs(s, t, PhaseUnreachable, Network)
         case _ => LockedAs(s, t, Locked, ProtocolFault)
  {
    hide LockUi;
    LocksAs(s, SetupRequired, Configuration);
    LocksAs(s, PhaseUnreachable, Network);
    LocksAs(s, Locked, ProtocolFault);
  }

  /** A lost session, told once: the page checks again with nobody signed in; during a sign-out it is only noted. */
  lemma LostSession(s: State)
    requires Sound(s) && s.flags.mounted && TokenHeld(s)
    requires s.runtime.notifiedFor != Some(s.runtime.accessGeneration)
    ensures
      var t := Next(s, Protected401);
      if s.flags.logoutInFlight
      then t.flags.unauthorizedDuringLogout && t.view == s.view && t.probes == s.probes && t.runtime.identity == s.runtime.identity
      else
        && Starts(s, t, UnauthorizedProbe, Unauthorized) && t.runtime.identity == NOBODY && t.transport.csrfToken.None?
        && t.view == View(Checking, Checking, Unauthorized, false)
  {
    hide StartProbe, Starts;
    if !s.flags.logoutInFlight {
      var told := s.(runtime := Step(s.runtime, NotifyUnauthorized));
      var checking :=
        told.(timers := told.timers.(focus := false, revalidate := false), runtime := Step(told.runtime, Clear),
              transport := NoCredentials(told.transport), view := View(Checking, Checking, Unauthorized, false));
      StepForward(s.runtime, NotifyUnauthorized);
      StepForward(told.runtime, Clear);
      CheckingSound(s, told, checking);
      TransitionSupersedes(checking, UnauthorizedProbe, Unauthorized);
      StartProbeKeeps(checking, UnauthorizedProbe, Unauthorized);
      StartsFrom(s, checking, StartProbe(checking, UnauthorizedProbe, Unauthorized), UnauthorizedProbe, Unauthorized);
      StartKeepsWho(checking, UnauthorizedProbe, Unauthorized);
      assert Next(s, Protected401) == StartProbe(checking, UnauthorizedProbe, Unauthorized);
    }
  }

  lemma StartKeepsWho(s: State, kind: Kind, reason: Reason)
    ensures
      var t := StartProbe(s, kind, reason);
      t.runtime == s.runtime && t.transport == s.transport && t.view == s.view
  {
  }

  lemma CheckingSound(s: State, told: State, checking: State)
    requires Sound(s) && !s.flags.logoutInFlight && Forward(s.runtime, told.runtime) && Forward(told.runtime, checking.runtime)
    requires told == s.(runtime := told.runtime) && checking.probes == s.probes && checking.flags == s.flags
    ensures Sound(checking)
  {
    hide Sound, Grows;
    Still(s);
    QuietStep(s, told);
    Still(told);
    QuietStep(told, checking);
  }

  /* ---------------- the token ---------------- */

  lemma LockHolds(s: State, phase: Phase, reason: Reason)
    requires TokenHeld(s)
    ensures TokenHeld(LockUi(s, phase, reason))
  {
    hide Cut;
  }

  lemma StartHolds(s: State, kind: Kind, reason: Reason)
    requires TokenHeld(s)
    ensures TokenHeld(StartProbe(s, kind, reason))
  {
    hide StartProbe;
    StartKeepsWho(s, kind, reason);
  }

  lemma ExpireHolds(s: State)
    requires TokenHeld(s)
    ensures TokenHeld(Expire(s))
  {
    hide LockUi, StartProbe, TokenHeld;
    LockHolds(s, Locked, Expired);
    var locked := LockUi(s, Locked, Expired);
    SameHolds(locked, locked.(view := locked.view.(shown := Locked)));
    StartHolds(locked.(view := locked.view.(shown := Locked)), ForcedProbe, Expired);
  }

  lemma SameHolds(s: State, t: State)
    requires TokenHeld(s) && (t.transport == s.transport || t.transport == NoCredentials(s.transport))
    ensures TokenHeld(t)
  {
  }

  lemma RestoreHolds(s: State, expires: bool, past: bool)
    requires TokenHeld(s)
    ensures TokenHeld(Restore(s, expires, past))
  {
    hide Expire, StartProbe;
    var released := s.(flags := s.flags.(logoutInFlight := false));
    ExpireHolds(released);
    StartHolds(released.(flags := released.flags.(unauthorizedDuringLogout := false),
                         timers := released.timers.(expiry := false), view := View(Checking, Checking, Unauthorized, false)),
               ForcedProbe, Unauthorized);
  }

  lemma StatusHolds(s: State, st: Status, reason: Reason)
    requires TokenHeld(s)
    ensures TokenHeld(ApplyStatus(s, st, reason))
  {
    hide LockUi, Expire;
    forall phase, r ensures TokenHeld(LockUi(s, phase, r)) { LockHolds(s, phase, r); }
    if st.via.Some? {
      var installed := InstallIdentity(s, st, st.via.value);
      assert TokenHeld(installed);
      ExpireHolds(installed);
    }
  }

  lemma OutcomeHolds(s: State, p: Pending, o: Outcome)
    requires TokenHeld(s)
    ensures TokenHeld(ApplyOutcome(s, p, o))
  {
    hide LockUi, ApplyStatus, Restore, TokenHeld;
    forall phase, r ensures TokenHeld(LockUi(s, phase, r)) { LockHolds(s, phase, r); }
    match o
    case Answer(st) =>
      StatusHolds(s, st, Initial);
      StatusHolds(s, st, p.reason);
      RestoreHolds(s, HasExpiry(s), st.past);
    case Failure(f, past) => RestoreHolds(s, HasExpiry(s), past);
  }

  lemma SettleHolds(s: State, q: nat, o: Outcome)
    requires TokenHeld(s)
    ensures TokenHeld(Settle(s, q, o))
  {
    hide ApplyOutcome, IsCurrent;
    if q in s.probes.waiting {
      var entry := Applied(s.probes.waiting[q], s.probes.sequence, s.runtime, s.flags.logoutInFlight);
      OutcomeHolds(
        s.(probes := s.probes.(waiting := s.probes.waiting - {q}, finishing := s.probes.finishing + {q},
                               applied := s.probes.applied + [entry])),
        s.probes.waiting[q], o);
    }
  }

  lemma NoticedHolds(s: State, e: SessionProbes.Event)
    requires TokenHeld(s)
    ensures TokenHeld(Noticed(s, e))
  {
    hide StartProbe, Expire;
    forall t: State, kind, reason | TokenHeld(t) ensures TokenHeld(StartProbe(t, kind, reason)) { StartHolds(t, kind, reason); }
    forall t: State | TokenHeld(t) ensures TokenHeld(Expire(t)) { ExpireHolds(t); }
  }

  lemma NextHolds(s: State, e: SessionProbes.Event)
    requires TokenHeld(s)
    ensures TokenHeld(Next(s, e))
  {
    hide StartProbe, LockUi, Restore, Settle, Noticed, Finish, Step;
    forall t: State, kind, reason | TokenHeld(t) ensures TokenHeld(StartProbe(t, kind, reason)) { StartHolds(t, kind, reason); }
    forall t: State, phase, r | TokenHeld(t) ensures TokenHeld(LockUi(t, phase, r)) { LockHolds(t, phase, r); }
    forall t: State, expires, past | TokenHeld(t) ensures TokenHeld(Restore(t, expires, past)) { RestoreHolds(t, expires, past); }
    match e
    case ProbeReply(q, o) => SettleHolds(s, q, o);
    case ProbeEnds(q) => FinishHolds(s, q);
    case _ => NoticedHolds(s, e);
  }

  lemma FinishHolds(s: State, q: nat)
    requires TokenHeld(s)
    ensures TokenHeld(Finish(s, q))
  {
  }

  /** Over every run a session is active exactly while there is a token. */
  lemma {:induction false} TokenHeldOverRuns(events: seq<SessionProbes.Event>)
    ensures TokenHeld(RunAll(START, events))
  {
    hide Next;
    if events == [] {
    } else {
      TokenHeldOverRuns(events[..|events| - 1]);
      NextHolds(RunAll(START, events[..|events| - 1]), events[|events| - 1]);
    }
  }

  /* ---------------- taking a session over, and its end ---------------- */

  /**
   Taking over a status installs who Core says it is: a session with its token, its expiry and the timer for it,
   a trusted or proxied user without any of these.
   */
  lemma TakenOver(s: State, st: Status, reason: Reason)
    requires st.authenticated && st.via.Some? && (st.via == Some(SessionAuth) ==> !st.past)
    requires TokenHeld(s)
    ensures
      var t := ApplyStatus(s, st, reason);
      && t.view == s.view.(live := true, phase := Authenticated, reason := Initial)
      && !t.flags.bfcacheSuspended && !t.flags.unauthorizedDuringLogout
      && (if st.via == Some(SessionAuth)
          then
            && t.runtime.identity == Identity(Some(SessionAuth), Some(st.expiresAt), t.transport.revision, st.browserEnabled)
            && t.transport.csrfToken == Some(st.csrfToken) && t.transport.sessionActive && t.timers.expiry
          else
            && t.runtime.identity == Identity(st.via, None, 0, st.browserEnabled)
            && t.transport.csrfToken.None? && !t.transport.sessionActive && !t.timers.expiry)
  {
  }

  lemma Expires(s: State)
    requires Sound(s) && !s.flags.logoutInFlight && TokenHeld(s)
    ensures
      var t := Expire(s);
      && Starts(s, t, ForcedProbe, Expired) && t.runtime.identity == NOBODY && t.transport.csrfToken.None?
      && t.view == View(Locked, Locked, Expired, false)
  {
    hide StartProbe, Starts, Cut, LockedAs;
    var locked := LockUi(s, Locked, Expired);
    LockUiKeeps(s, Locked, Expired);
    LogoutOkFrom(s);
    SoundIsConsistent(s);
    CutForward(s.runtime);
    var shown := locked.(view := locked.view.(shown := Locked));
    ViewKeeps(locked, shown);
    TransitionSupersedes(shown, ForcedProbe, Expired);
    StartKeepsWho(shown, ForcedProbe, Expired);
    StartsFrom(s, shown, Expire(s), ForcedProbe, Expired);
  }

  /** A session that runs out, seen by its timer or on coming back to the page, locks it and asks Core at once. */
  lemma ExpiryLocks(events: seq<SessionProbes.Event>)
    ensures
      var s := RunAll(START, events);
      s.flags.mounted && !s.flags.logoutInFlight ==>
        forall e :: (e == ExpiryFires && s.timers.expiry) || (e == Focused(true) && s.view.shown == Authenticated && HasExpiry(s)) ==>
          var t := Next(s, e);
          && Starts(s, t, ForcedProbe, Expired) && t.runtime.identity == NOBODY && t.transport.csrfToken.None?
          && t.view == View(Locked, Locked, Expired, false)
  {
    hide RunAll, Sound, Starts, Expire;
    TokenHeldOverRuns(events);
    StartOk();
    RunKeeps(START, events);
    var s := RunAll(START, events);
    if s.flags.mounted && !s.flags.logoutInFlight {
      var u := s.(timers := s.timers.(expiry := false));
      SameSound(s, u);
      Expires(s);
      Expires(u);
      StartsFrom(s, u, Expire(u), ForcedProbe, Expired);
    }
  }

  /** Coming back to a signed-in page arms the timer of the focus probe; a wish to revalidate arms its own, at most every 750 ms. */
  lemma TimersArm(s: State, now: int)
    requires s.flags.mounted && !s.flags.logoutInFlight
    ensures s.view.shown == Authenticated && !s.flags.bfcacheSuspended ==> Next(s, Focused(false)) == s.(timers := s.timers.(focus := true))
    ensures
      var t := Next(s, RevalidateWanted(now));
      && t == s.(runtime := t.runtime, timers := t.timers)
      && t.timers == s.timers.(revalidate := s.timers.revalidate || now - s.runtime.revalidatedAt >= 750)
  {
  }

  /** Nothing that is in flight can act, no timer is armed, and what is protected is neither shown live nor current. */
  ghost predicate Quiescent(s: State, t: State) {
    && t.timers == Timers(false, false, false) && !t.view.live && t.runtime.accessGeneration > s.runtime.accessGeneration
    && forall q :: q in t.probes.waiting ==> !IsCurrent(t, t.probes.waiting[q].handle)
  }

  /** A page that is hidden or left is quiescent; hidden it waits to be checked again, left it keeps no token. */
  lemma LeavingQuiets(events: seq<SessionProbes.Event>)
    ensures
      var s := RunAll(START, events);
      && (s.flags.mounted ==>
            var t := Next(s, PageHide);
            Quiescent(s, t) && t.flags.bfcacheSuspended && t.view.phase == Checking && t.view.shown == Checking)
      && var t := Next(s, Unmount);
         Quiescent(s, t) && !t.flags.mounted && t.transport.csrfToken.None? && !t.transport.sessionActive
  {
    hide RunAll;
    TokenHeldOverRuns(events);
  }
}
