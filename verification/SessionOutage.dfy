/**
 What failed probes leave behind: a page shown as signed in survives an outage of Core,
 and what else a probe's reply shows is told by the reply and the kind of probe.
 */
module SessionOutage {
  import opened Basics
  import opened AuthState
  import opened SessionProbes
  import opened SessionSafety
  import opened SessionTheorems
  import opened SessionShown

  /* ---------------- an outage ---------------- */

  /** Shown as signed in, with no probe in flight that could take the page over. */
  ghost predicate SignedInPage(s: State) {
    && s.flags.mounted && !s.flags.logoutInFlight && s.view.phase == Authenticated && s.view.shown == Authenticated
    && forall q :: q in s.probes.waiting && IsCurrent(s, s.probes.waiting[q].handle) ==> Stable(s.probes.waiting[q].handle.kind)
  }

  /** Failures that say nothing about the session: Core cannot be reached, or answers something else. */
  predicate SaysNothing(f: Failure) { f in {Unreachable, OtherApi, Foreign, Stale} }

  /** What goes on while Core cannot be asked: background triggers and their failures. */
  predicate Outage(e: SessionProbes.Event) {
    match e
    case ProbeReply(_, Failure(f, _)) => SaysNothing(f)
    case ProbeEnds(_) => true
    case Render => true
    case SseProbe => true
    case RevalidateWanted(_) => true
    case RevalidateFires => true
    case FocusFires => true
    case Focused(past) => !past
    case PageShow(persisted, past) => !persisted && !past
    case _ => false
  }

  /** Who is signed in, with what token, and what is shown. */
  ghost predicate SamePage(s: State, t: State) {
    && t.runtime.identity == s.runtime.identity && t.transport == s.transport && t.view == s.view
    && t.runtime.identityGeneration == s.runtime.identityGeneration
    && t.runtime.accessGeneration == s.runtime.accessGeneration
  }

  /** A background failure that says nothing changes the table of probes alone. */
  lemma FailureKeepsPage(s: State, q: nat, f: Failure, past: bool)
    requires SignedInPage(s) && SaysNothing(f)
    ensures
      var t := Settle(s, q, Failure(f, past));
      && SamePage(s, t) && t.flags == s.flags && t.timers == s.timers && t.probes.active == s.probes.active
      && t.probes.sequence == s.probes.sequence && t.probes.waiting == s.probes.waiting - {q}
  {
    hide LockUi, Restore;
    assert q !in s.probes.waiting ==> s.probes.waiting - {q} == s.probes.waiting;
  }

  lemma TriggerKeepsPage(s: State, t: State, kind: Kind, reason: Reason)
    requires Sound(s) && SignedInPage(s) && t == s.(timers := t.timers) && Stable(kind)
    ensures SamePage(s, StartProbe(t, kind, reason)) && SignedInPage(StartProbe(t, kind, reason))
  {
    var u := StartProbe(t, kind, reason);
    if u != t {
      forall q | q in u.probes.waiting && IsCurrent(u, u.probes.waiting[q].handle)
        ensures Stable(u.probes.waiting[q].handle.kind) {}
    }
  }

  lemma OutageStep(s: State, e: SessionProbes.Event)
    requires Sound(s) && SignedInPage(s) && Outage(e)
    ensures SamePage(s, Next(s, e)) && SignedInPage(Next(s, e))
  {
    hide Settle, StartProbe, Sound, Expire;
    match e
    case ProbeReply(q, Failure(f, past)) => FailureKeepsPage(s, q, f, past);
    case SseProbe => TriggerKeepsPage(s, s, SseError, Unauthorized);
    case RevalidateFires => TriggerKeepsPage(s, s.(timers := s.timers.(revalidate := false)), CsrfRefresh, Initial);
    case FocusFires => TriggerKeepsPage(s, s.(timers := s.timers.(focus := false)), FocusProbe, Initial);
    case _ =>
  }

  /**
   However long an outage lasts and however many background probes fail in it, a page shown as signed in
   keeps its identity, its token and what it shows, and protected work stays current.
   */
  lemma {:induction false} OutageKeepsPage(
    events: seq<SessionProbes.Event>, outage: seq<SessionProbes.Event>)
    requires SignedInPage(RunAll(START, events)) && forall e :: e in outage ==> Outage(e)
    ensures
      var s := RunAll(START, events);
      SamePage(s, RunAll(s, outage)) && SignedInPage(RunAll(s, outage))
  {
    hide Next, Sound, SignedInPage;
    if outage != [] {
      var s, init := RunAll(START, events), outage[..|outage| - 1];
      StartOk();
      RunKeeps(START, events);
      RunKeeps(s, init);
      OutageKeepsPage(events, init);
      OutageStep(RunAll(s, init), outage[|outage| - 1]);
    }
  }

  /**
   The reply of a background probe to a page shown as signed in: a failure leaves the page exactly if it says
   nothing about the session, and otherwise signs it out.
   */
  lemma BackgroundFailureExactly(events: seq<SessionProbes.Event>, q: nat, f: Failure, past: bool)
    requires
      var s := RunAll(START, events);
      Acts(s, q) && Stable(s.probes.waiting[q].handle.kind) && s.view.shown == Authenticated
    ensures
      var s := RunAll(START, events);
      var t := Next(s, ProbeReply(q, Failure(f, past)));
      if SaysNothing(f) then SamePage(s, t)
      else t.runtime.identity == NOBODY && t.transport.csrfToken.None? && !t.view.live && t.view.phase != Authenticated
           && t.runtime.accessGeneration > s.runtime.accessGeneration
  {
    hide RunAll, Sound, Cut;
    StartOk();
    RunKeeps(START, events);
    SoundIsConsistent(RunAll(START, events));
    CutForward(RunAll(START, events).runtime);
  }

  lemma SoundIsConsistent(s: State)
    requires Sound(s)
    ensures Consistent(s.runtime)
  {
  }

  /* ---------------- what a reply shows ---------------- */

  /** A session is active exactly while there is a token for it. */
  ghost predicate TokenHeld(s: State) { s.transport.sessionActive == s.transport.csrfToken.Some? }

  /** The page is locked: nobody signed in, no token, nothing live. */
  ghost predicate LockedAs(s: State, t: State, phase: Phase, reason: Reason) {
    && t.view.phase == phase && t.view.reason == reason && !t.view.live && t.runtime.identity == NOBODY
    && t.transport.csrfToken.None? && !t.transport.sessionActive
    && t.runtime.accessGeneration > s.runtime.accessGeneration
  }

  lemma LocksAs(s: State, phase: Phase, reason: Reason)
    requires Consistent(s.runtime) && TokenHeld(s)
    ensures LockedAs(s, LockUi(s, phase, reason), phase, reason)
  {
    hide Cut;
    CutForward(s.runtime);
  }

  /**
   An answer that nobody is signed in locks the page: without any way to sign in as not set up, with the proxy
   alone as only reachable through it, and otherwise for the reason the probe was started with if that was
   signing out, running out or being refused. A sign-in that brought no session blames the cookie.
   */
  lemma NobodyAnswered(s: State, p: Pending, st: Status)
    requires Consistent(s.runtime) && TokenHeld(s)
    requires !st.authenticated && (p.handle.kind == LoginProbe ==> !s.flags.bfcacheSuspended)
    ensures
      var t := ApplyOutcome(s, p, Answer(st));
      if p.handle.kind == LoginProbe then LockedAs(s, t, Locked, CookieBlocked)
      else if st.browserEnabled then
        LockedAs(s, t, Locked, if p.handle.kind == LogoutProbe then LoggedOut
                               else if p.reason == LoggedOut || p.reason == Expired then p.reason else Unauthorized)
      else if st.ingressEnabled && p.handle.kind != LogoutProbe then LockedAs(s, t, Locked, IngressRequired)
      else LockedAs(s, t, SetupRequired, Configuration)
  {
    hide LockUi, LockedAs;
    LocksAs(s, Locked, CookieBlocked);
    LocksAs(s, Locked, IngressRequired);
    LocksAs(s, SetupRequired, Configuration);
    LocksAs(s, Locked, LoggedOut);
    LocksAs(s, Locked, Expired);
    LocksAs(s, Locked, Unauthorized);
  }

  /** What each failure makes of the page: told by the failure, the kind of probe and what is shown. */
  lemma FailureLocks(s: State, p: Pending, f: Failure, past: bool)
    requires Consistent(s.runtime) && TokenHeld(s)
    ensures
      var t, k := ApplyOutcome(s, p, Failure(f, past)), p.handle.kind;
      match f
      case UnexpectedBearer => LockedAs(s, t, SetupRequired, Configuration)
      case Malformed => LockedAs(s, t, Locked, ProtocolFault)
      case IncompleteSession => LockedAs(s, t, Locked, if k == LoginProbe then CookieBlocked else Unauthorized)
      case Stale => if k == LoginProbe then LockedAs(s, t, Locked, CookieBlocked) else t == s
      case _ =>
        if k == LoginProbe && f == OtherApi then LockedAs(s, t, Locked, CookieBlocked)
        else if Stable(k) && s.view.shown == Authenticated then t == s
        else if (k == LogoutProbe && f == Unreachable) || (k == CsrfRefresh && s.view.shown == SigningOut)
        then t == Restore(s, s.runtime.identity.expiresAt.Some?, past)
        else LockedAs(s, t, PhaseUnreachable, Network)
  {
    hide LockUi, LockedAs, Restore;
    LocksAs(s, SetupRequired, Configuration);
    LocksAs(s, Locked, ProtocolFault);
    LocksAs(s, Locked, CookieBlocked);
    LocksAs(s, Locked, Unauthorized);
    LocksAs(s, PhaseUnreachable, Network);
  }
}
