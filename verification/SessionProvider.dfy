/**
 The provider itself: its refs and state, changed step by step. `events` is what has
 happened to it, and every entry point keeps the state the one the protocol reaches
 by those events; so the protocol's theorems are theorems about the object.
 */
module SessionProvider {
  import opened Basics
  import opened AuthState
  import opened SessionProbes
  import opened SessionSafety
  import opened SessionTheorems
  import opened SessionSignOut

  class Provider {
    var runtime: Runtime
    var transport: Transport
    var probeSequence: nat
    var activeProbe: Option<Handle>
    var focusRun: Option<nat>
    var waiting: map<nat, Pending>
    var finishing: set<nat>
    var applied: seq<Applied>
    var flags: Flags
    var timers: Timers
    var view: View
    ghost var events: seq<SessionProbes.Event>

    function Table(): Probes reads this { Probes(probeSequence, activeProbe, focusRun, waiting, finishing, applied) }

    function Now(): State reads this { State(runtime, transport, Table(), flags, timers, view) }

    /** The state is the one the protocol reaches by what happened so far. */
    ghost predicate Valid() reads this { Now() == RunAll(START, events) }

    constructor ()
      ensures Valid() && events == []
    {
      runtime, transport := FRESH, Transport(None, 0, false);
      probeSequence, activeProbe, focusRun, waiting, finishing, applied := 0, None, None, map[], {}, [];
      flags, timers := START.flags, START.timers;
      view := START.view;
      events := [];
    }

    method InvalidateProbes()
      modifies this
      ensures events == old(events)
      ensures Now() == old(Now()).(probes := SessionProbes.InvalidateProbes(old(Table())))
    {
      probeSequence := probeSequence + 1;
      activeProbe, focusRun := None, None;
    }

    /** Whether a probe may still act. */
    method IsProbeCurrent(h: Handle) returns (current: bool)
      ensures current == IsCurrent(Now(), h)
    {
      if !flags.mounted { return false; }
      if activeProbe.None? || activeProbe.value.sequence != h.sequence { return false; }
      if h.sequence != probeSequence { return false; }
      if flags.logoutInFlight && h.kind != LogoutProbe { return false; }
      if Stable(h.kind) {
        if h.identityGeneration != runtime.identityGeneration { return false; }
        if h.accessGeneration != runtime.accessGeneration { return false; }
      } else if h.kind == LoginProbe {
        if flags.bfcacheSuspended { return false; }
        if h.accessGeneration != runtime.accessGeneration { return false; }
      } else if h.kind == LogoutProbe {
        if h.accessGeneration != runtime.accessGeneration { return false; }
      }
      return true;
    }

    /** Clears the identity, and makes protected work stale even when there was none. */
    method ClearIdentity()
      modifies this`runtime, this`transport
      ensures runtime == Cut(old(runtime)) && transport == NoCredentials(old(transport))
    {
      hide Step;
      var accessBefore := runtime.accessGeneration;
      transport, runtime := NoCredentials(transport), Step(runtime, Clear);
      if runtime.accessGeneration == accessBefore { runtime := Step(runtime, AdvanceAccess); }
    }

    method LockUi(next: Phase, reason: Reason)
      modifies this
      ensures events == old(events)
      ensures Now() == SessionProbes.LockUi(old(Now()), next, reason)
    {
      hide Cut, NoCredentials;
      timers := NO_TIMERS;
      InvalidateProbes();
      flags := flags.(bfcacheSuspended := false, unauthorizedDuringLogout := false);
      ClearIdentity();
      view := view.(phase := next, reason := reason, live := false);
    }

    /** Records a new probe as the active one. */
    method IssueProbe(kind: Kind, reason: Reason)
      modifies this
      ensures events == old(events)
      ensures Now() == Issue(old(Now()), kind, reason)
    {
      probeSequence := probeSequence + 1;
      var handle := Handle(probeSequence, runtime.identityGeneration, runtime.accessGeneration, kind);
      activeProbe := Some(handle);
      waiting := waiting[probeSequence := Pending(handle, reason, runtime.identity)];
      if kind == FocusProbe { focusRun := Some(probeSequence); }
    }

    /** A focus probe of the present access generation is already in flight. */
    method FocusProbeRuns() returns (running: bool)
      ensures running == FocusRuns(Now())
    {
      if focusRun.None? || activeProbe.None? { return false; }
      return activeProbe.value.kind == FocusProbe && activeProbe.value.accessGeneration == runtime.accessGeneration;
    }

    /** A probe that owns a transition is in flight. */
    method TransitionOwned() returns (owned: bool)
      ensures owned == Owned(Table())
    {
      if activeProbe.None? { return false; }
      return !Stable(activeProbe.value.kind) && activeProbe.value.sequence == probeSequence;
    }

    method StartProbe(kind: Kind, reason: Reason)
      modifies this
      ensures events == old(events)
      ensures Now() == SessionProbes.StartProbe(old(Now()), kind, reason)
    {
      hide Issue, FocusRuns, Owned, SessionProbes.InvalidateProbes;
      if flags.logoutInFlight && kind != LogoutProbe { return; }
      var running := FocusProbeRuns();
      if kind == FocusProbe && running { return; }
      if !Stable(kind) {
        InvalidateProbes();
      } else {
        var owned := TransitionOwned();
        if owned { return; }
      }
      IssueProbe(kind, reason);
    }

    method Expire()
      modifies this
      ensures events == old(events)
      ensures Now() == SessionProbes.Expire(old(Now()))
    {
      hide SessionProbes.LockUi, SessionProbes.StartProbe;
      LockUi(Locked, Expired);
      view := view.(shown := Locked);
      StartProbe(ForcedProbe, Expired);
    }

    method ScheduleExpiry(past: bool)
      modifies this
      ensures events == old(events)
      ensures Now() == SessionProbes.ScheduleExpiry(old(Now()), past)
    {
      hide SessionProbes.Expire;
      if past {
        Expire();
      } else {
        timers := timers.(expiry := true);
      }
    }

    method InstallIdentity(st: Status, via: Method)
      modifies this
      ensures events == old(events)
      ensures Now() == SessionProbes.InstallIdentity(old(Now()), st, via)
    {
      hide Step, TransportStep;
      match via
      case TrustedLocal =>
        transport, runtime := NoCredentials(transport), Step(runtime, SetTrustedLocal(st.browserEnabled));
      case Ingress =>
        transport, runtime := NoCredentials(transport), Step(runtime, SetIngress(st.browserEnabled));
      case SessionAuth =>
        transport := TransportStep(_ => true, transport, Install(st.csrfToken));
        runtime := Step(runtime, SetSession(st.expiresAt, st.browserEnabled, transport.revision));
    }

    method ApplyStatus(st: Status, reason: Reason)
      modifies this
      ensures events == old(events)
      ensures Now() == SessionProbes.ApplyStatus(old(Now()), st, reason)
    {
      hide SessionProbes.LockUi, SessionProbes.InstallIdentity, SessionProbes.ScheduleExpiry;
      if !st.authenticated {
        if st.ingressEnabled && !st.browserEnabled {
          LockUi(Locked, IngressRequired);
          return;
        }
        if !st.browserEnabled {
          LockUi(SetupRequired, Configuration);
          return;
        }
        LockUi(Locked, if reason in {LoggedOut, Expired, Unauthorized} then reason else Unauthorized);
        return;
      }
      if st.via.Some? {
        InstallIdentity(st, st.via.value);
        if st.via == Some(SessionAuth) {
          ScheduleExpiry(st.past);
        } else {
          timers := timers.(expiry := false);
        }
        flags := flags.(bfcacheSuspended := false, unauthorizedDuringLogout := false);
        view := view.(live := true, phase := Authenticated, reason := Initial);
        return;
      }
      LockUi(Locked, Unauthorized);
    }

    method RestoreAuthenticatedAccess(expires: bool, past: bool)
      modifies this
      ensures events == old(events)
      ensures Now() == Restore(old(Now()), expires, past)
    {
      hide SessionProbes.ScheduleExpiry, SessionProbes.StartProbe;
      flags := flags.(logoutInFlight := false);
      if flags.unauthorizedDuringLogout {
        flags := flags.(unauthorizedDuringLogout := false);
        timers := timers.(expiry := false);
        view := View(Checking, Checking, Unauthorized, false);
        StartProbe(ForcedProbe, Unauthorized);
        return;
      }
      if expires { ScheduleExpiry(past); }
      view := view.(live := true, phase := Authenticated, reason := Initial);
    }

    method ApplyAnswer(p: Pending, st: Status)
      modifies this
      ensures events == old(events)
      ensures Now() == SessionProbes.ApplyAnswer(old(Now()), p, st)
    {
      hide SessionProbes.LockUi, SessionProbes.ApplyStatus, Restore;
      if p.handle.kind == LoginProbe {
        if flags.bfcacheSuspended { return; }
        if !st.authenticated || st.via != Some(SessionAuth) {
          LockUi(Locked, CookieBlocked);
          return;
        }
        ApplyStatus(st, Initial);
        return;
      }
      if p.handle.kind == LogoutProbe {
        if !st.authenticated {
          if !st.browserEnabled { LockUi(SetupRequired, Configuration); } else { LockUi(Locked, LoggedOut); }
          return;
        }
        RestoreAuthenticatedAccess(runtime.identity.expiresAt.Some?, st.past);
        return;
      }
      ApplyStatus(st, p.reason);
    }

    method ApplyFailure(p: Pending, f: Failure, past: bool)
      modifies this
      ensures events == old(events)
      ensures Now() == SessionProbes.ApplyFailure(old(Now()), p, f, past)
    {
      hide SessionProbes.LockUi, Restore;
      var kind := p.handle.kind;
      var retain := Stable(kind) && view.shown == Authenticated;
      if f == UnexpectedBearer { LockUi(SetupRequired, Configuration); return; }
      if kind == LoginProbe && f != Foreign {
        if f == Unreachable { LockUi(PhaseUnreachable, Network); }
        else if f == Malformed { LockUi(Locked, ProtocolFault); }
        else { LockUi(Locked, CookieBlocked); }
        return;
      }
      if f == IncompleteSession { LockUi(Locked, Unauthorized); return; }
      if f == Malformed { LockUi(Locked, ProtocolFault); return; }
      if f == Stale || retain { return; }
      if (f == Unreachable && kind == LogoutProbe) || (kind == CsrfRefresh && view.shown == SigningOut) {
        RestoreAuthenticatedAccess(runtime.identity.expiresAt.Some?, past);
        return;
      }
      LockUi(PhaseUnreachable, Network);
    }

    /** The end of the step for an event. */
    ghost method Record(e: SessionProbes.Event)
      requires Now() == Next(RunAll(START, events), e)
      modifies this`events
      ensures Valid() && events == old(events) + [e]
    {
      assert (events + [e])[..|events|] == events;
      events := events + [e];
    }

    /* ---------------- probes ---------------- */

    /** A probe's reply: it acts only if the probe is still current. */
    method ProbeReply(q: nat, o: Outcome)
      requires Valid()
      modifies this
      ensures Valid() && events == old(events) + [SessionProbes.ProbeReply(q, o)]
    {
      hide RunAll, Settle;
      TakeReply(q, o);
      Record(SessionProbes.ProbeReply(q, o));
    }

    method TakeReply(q: nat, o: Outcome)
      modifies this
      ensures events == old(events)
      ensures Now() == Settle(old(Now()), q, o)
    {
      hide SessionProbes.ApplyAnswer, SessionProbes.ApplyFailure, IsCurrent;
      if q !in waiting { return; }
      var p := waiting[q];
      waiting, finishing := waiting - {q}, finishing + {q};
      var current := IsProbeCurrent(p.handle);
      if !current { return; }
      applied := applied + [Applied(p, probeSequence, runtime, flags.logoutInFlight)];
      match o
      case Answer(st) => ApplyAnswer(p, st);
      case Failure(f, past) => ApplyFailure(p, f, past);
    }

    method ProbeEnds(q: nat)
      requires Valid()
      modifies this
      ensures Valid() && events == old(events) + [SessionProbes.ProbeEnds(q)]
    {
      hide RunAll;
      if q in finishing {
        finishing := finishing - {q};
        if activeProbe.Some? && activeProbe.value.sequence == q { activeProbe := None; }
        if focusRun == Some(q) { focusRun := None; }
      }
      Record(SessionProbes.ProbeEnds(q));
    }

    /* ---------------- the provider on the page ---------------- */

    method Mount()
      requires Valid()
      modifies this
      ensures Valid() && events == old(events) + [SessionProbes.Mount]
    {
      hide RunAll, SessionProbes.StartProbe;
      flags := flags.(mounted := true);
      StartProbe(InitialProbe, Initial);
      Record(SessionProbes.Mount);
    }

    method Unmount()
      requires Valid()
      modifies this
      ensures Valid() && events == old(events) + [SessionProbes.Unmount]
    {
      hide RunAll, Step;
      flags := flags.(mounted := false, unauthorizedDuringLogout := false);
      timers := NO_TIMERS;
      InvalidateProbes();
      runtime := Step(runtime, AdvanceAccess);
      transport := NoCredentials(transport);
      view := view.(live := false);
      Record(SessionProbes.Unmount);
    }

    method Render()
      requires Valid()
      modifies this
      ensures Valid() && events == old(events) + [SessionProbes.Render]
    {
      hide RunAll;
      view := view.(shown := view.phase);
      Record(SessionProbes.Render);
    }

    method Retry()
      requires Valid()
      modifies this
      ensures Valid() && events == old(events) + [SessionProbes.Retry]
    {
      hide RunAll, SessionProbes.StartProbe;
      view := view.(phase := Checking);
      StartProbe(ForcedProbe, Initial);
      Record(SessionProbes.Retry);
    }

    /* ---------------- notices of the runtime ---------------- */

    /** A protected request met a 401: outside a sign-out the identity goes and Core is asked again. */
    method Protected401()
      requires Valid()
      modifies this
      ensures Valid() && events == old(events) + [SessionProbes.Protected401]
    {
      hide RunAll, Step, HandleUnauthorized;
      var announced := Announces(runtime, NotifyUnauthorized);
      runtime := Step(runtime, NotifyUnauthorized);
      if flags.mounted && announced { LoseSession(); }
      Record(SessionProbes.Protected401);
    }

    method LoseSession()
      modifies this
      ensures events == old(events)
      ensures Now() == HandleUnauthorized(old(Now()))
    {
      hide Step, SessionProbes.StartProbe;
      if flags.logoutInFlight {
        flags := flags.(unauthorizedDuringLogout := true);
        runtime := Step(runtime, ReleaseDedupe);
        return;
      }
      timers := timers.(focus := false, revalidate := false);
      transport, runtime := NoCredentials(transport), Step(runtime, Clear);
      view := View(Checking, Checking, Unauthorized, false);
      StartProbe(UnauthorizedProbe, Unauthorized);
    }

    method RevalidateWanted(now: int)
      requires Valid()
      modifies this
      ensures Valid() && events == old(events) + [SessionProbes.RevalidateWanted(now)]
    {
      hide RunAll, Step;
      var told := now - runtime.revalidatedAt >= DEBOUNCE_MS;
      runtime := Step(runtime, NotifyRevalidate(now));
      if flags.mounted && told && !flags.logoutInFlight { timers := timers.(revalidate := true); }
      Record(SessionProbes.RevalidateWanted(now));
    }

    method RevalidateFires()
      requires Valid()
      modifies this
      ensures Valid() && events == old(events) + [SessionProbes.RevalidateFires]
    {
      hide RunAll, SessionProbes.StartProbe;
      if flags.mounted && timers.revalidate {
        timers := timers.(revalidate := false);
        if !flags.logoutInFlight { StartProbe(CsrfRefresh, Initial); }
      }
      Record(SessionProbes.RevalidateFires);
    }

    method SseProbe()
      requires Valid()
      modifies this
      ensures Valid() && events == old(events) + [SessionProbes.SseProbe]
    {
      hide RunAll, SessionProbes.StartProbe;
      if flags.mounted && !flags.logoutInFlight && !flags.bfcacheSuspended && view.shown == Authenticated {
        StartProbe(SseError, Unauthorized);
      }
      Record(SessionProbes.SseProbe);
    }

    /* ---------------- timers and page events ---------------- */

    method ExpiryFires()
      requires Valid()
      modifies this
      ensures Valid() && events == old(events) + [SessionProbes.ExpiryFires]
    {
      hide RunAll, SessionProbes.Expire;
      if flags.mounted && timers.expiry {
        timers := timers.(expiry := false);
        Expire();
      }
      Record(SessionProbes.ExpiryFires);
    }

    /** Locks an expired session at once, and otherwise lets a focus probe follow. */
    method ComeBack(past: bool)
      modifies this
      ensures events == old(events)
      ensures Now() == FocusPage(old(Now()), past)
    {
      hide SessionProbes.Expire;
      if view.shown == Authenticated && runtime.identity.expiresAt.Some? && past {
        Expire();
        return;
      }
      if view.shown != Authenticated { return; }
      if flags.logoutInFlight || flags.bfcacheSuspended { return; }
      timers := timers.(focus := true);
    }

    method Focused(past: bool)
      requires Valid()
      modifies this
      ensures Valid() && events == old(events) + [SessionProbes.Focused(past)]
    {
      hide RunAll, FocusPage;
      if flags.mounted { ComeBack(past); }
      Record(SessionProbes.Focused(past));
    }

    method FocusFires()
      requires Valid()
      modifies this
      ensures Valid() && events == old(events) + [SessionProbes.FocusFires]
    {
      hide RunAll, SessionProbes.StartProbe;
      if flags.mounted && timers.focus {
        timers := timers.(focus := false);
        if view.shown == Authenticated && !flags.logoutInFlight && !flags.bfcacheSuspended {
          StartProbe(FocusProbe, Initial);
        }
      }
      Record(SessionProbes.FocusFires);
    }

    /** The page goes to the back-forward cache: the identity stays, protected work goes stale. */
    method PageHide()
      requires Valid()
      modifies this
      ensures Valid() && events == old(events) + [SessionProbes.PageHide]
    {
      hide RunAll, Step;
      if flags.mounted {
        timers := NO_TIMERS;
        InvalidateProbes();
        flags := flags.(bfcacheSuspended := true);
        runtime := Step(runtime, AdvanceAccess);
        view := View(Checking, Checking, Initial, false);
      }
      Record(SessionProbes.PageHide);
    }

    method PageShow(persisted: bool, past: bool)
      requires Valid()
      modifies this
      ensures Valid() && events == old(events) + [SessionProbes.PageShow(persisted, past)]
    {
      hide RunAll, SessionProbes.StartProbe, FocusPage;
      if flags.mounted {
        if persisted {
          timers := timers.(focus := false, revalidate := false);
          flags := flags.(bfcacheSuspended := true);
          view := View(Checking, Checking, Initial, false);
          StartProbe(BfcacheProbe, Initial);
        } else {
          ComeBack(past);
        }
      }
      Record(SessionProbes.PageShow(persisted, past));
    }

    /* ---------------- signing in ---------------- */

    method LoginStarts()
      requires Valid()
      modifies this
      ensures Valid() && events == old(events) + [SessionProbes.LoginStarts]
    {
      hide RunAll;
      if !flags.loginInFlight {
        flags := flags.(loginInFlight := true);
        InvalidateProbes();
      }
      Record(SessionProbes.LoginStarts);
    }

    /** Core has answered the token: an accepted one is confirmed by a probe. */
    method LoginSettles(b: Bootstrap)
      requires Valid()
      modifies this
      ensures Valid() && events == old(events) + [SessionProbes.LoginSettles(b)]
    {
      hide RunAll, SettleLogin;
      if flags.loginInFlight {
        TakeBootstrap(b);
        if !b.Opened? { flags := flags.(loginInFlight := false); }
      }
      Record(SessionProbes.LoginSettles(b));
    }

    method TakeBootstrap(b: Bootstrap)
      modifies this
      ensures events == old(events)
      ensures Now() == SettleLogin(old(Now()), b)
    {
      hide SessionProbes.StartProbe, SessionProbes.LockUi;
      match b
      case Opened => StartProbe(LoginProbe, Initial);
      case TokenRefused => view := view.(phase := Locked, reason := Unauthorized);
      case NotConfigured => LockUi(SetupRequired, Configuration);
      case OriginRefused => view := view.(phase := Locked, reason := OriginRejected);
      case CoreUnreachable => LockUi(PhaseUnreachable, Network);
      case BadReply => LockUi(Locked, ProtocolFault);
      case OtherRefusal => view := view.(phase := Locked, reason := Unauthorized);
    }

    method LoginEnds()
      requires Valid()
      modifies this
      ensures Valid() && events == old(events) + [SessionProbes.LoginEnds]
    {
      hide RunAll;
      flags := flags.(loginInFlight := false);
      Record(SessionProbes.LoginEnds);
    }

    /* ---------------- signing out ---------------- */

    /** The first part of signing out, up to sending the request. */
    method LogoutStarts()
      requires Valid()
      modifies this
      ensures Valid() && events == old(events) + [SessionProbes.LogoutStarts]
    {
      hide RunAll, Step;
      if !flags.logoutInFlight {
        flags := flags.(logoutInFlight := true, logoutBusy := true, deletes := flags.deletes + 1);
        timers := NO_TIMERS;
        InvalidateProbes();
        runtime := Step(runtime, AdvanceAccess);
        view := View(SigningOut, SigningOut, LoggedOut, false);
      }
      Record(SessionProbes.LogoutStarts);
    }

    /** Core has answered the request, or could not be asked. */
    method LogoutSettles(d: Deletion, hadExpiry: bool, past: bool)
      requires Valid()
      modifies this
      ensures Valid() && events == old(events) + [SessionProbes.LogoutSettles(d, hadExpiry, past)]
    {
      hide RunAll, SettleLogout;
      if flags.deletes > 0 {
        flags := flags.(deletes := flags.deletes - 1,
                        ending := if d == DeleteCsrf then flags.ending else flags.ending + 1,
                        endingCsrf := if d == DeleteCsrf then flags.endingCsrf + 1 else flags.endingCsrf);
        TakeDeletion(d, hadExpiry, past);
      }
      Record(SessionProbes.LogoutSettles(d, hadExpiry, past));
    }

    method TakeDeletion(d: Deletion, hadExpiry: bool, past: bool)
      modifies this
      ensures events == old(events)
      ensures Now() == SettleLogout(old(Now()), d, hadExpiry, past)
    {
      hide SessionProbes.StartProbe, SessionProbes.LockUi, Restore;
      match d
      case Deleted => StartProbe(LogoutProbe, LoggedOut);
      case DeleteRefused401 => StartProbe(LogoutProbe, LoggedOut);
      case DeleteStale => StartProbe(LogoutProbe, LoggedOut);
      case DeleteCsrf =>
      case DeleteProtocol => LockUi(Locked, ProtocolFault);
      case DeleteUnreachable => RestoreAuthenticatedAccess(hadExpiry || runtime.identity.expiresAt.Some?, past);
      case DeleteOther => RestoreAuthenticatedAccess(hadExpiry || runtime.identity.expiresAt.Some?, past);
    }

    /** The clean-up of a sign-out; one refused for its token refreshes the token. */
    method LogoutEnds(csrf: bool)
      requires Valid()
      modifies this
      ensures Valid() && events == old(events) + [SessionProbes.LogoutEnds(csrf)]
    {
      hide RunAll, SessionProbes.StartProbe;
      if csrf {
        if flags.endingCsrf > 0 {
          flags := flags.(logoutInFlight := false, logoutBusy := false, endingCsrf := flags.endingCsrf - 1);
          StartProbe(CsrfRefresh, Initial);
        }
      } else if flags.ending > 0 {
        flags := flags.(logoutInFlight := false, logoutBusy := false, ending := flags.ending - 1);
      }
      Record(SessionProbes.LogoutEnds(csrf));
    }
  }

  /** What a provider has been through decides its outcomes: each was applied in its turn and rightly. */
  lemma ProviderAppliesInOrder(p: Provider)
    requires p.Valid()
    ensures InOrder(p.applied) && forall i :: 0 <= i < |p.applied| ==> EntryOk(p.applied[i])
  {
    hide RunAll;
    ProbesApplyInOrder(p.events);
  }

  /** A provider whose sign-outs come from its buttons hides everything while Core has not answered one. */
  lemma ProviderSignOutOwnsPage(p: Provider)
    requires p.Valid() && ByButtons(p.events) && p.flags.deletes > 0
    ensures p.flags.logoutInFlight && !p.view.live && p.view.phase != Authenticated
  {
    hide RunAll;
    SignOutOwnsPage(p.events);
  }
}
