/**
 What every run of the session protocol keeps: outcomes are applied in the order
 probes were started, only the newest probe's is, background probes never act on
 a changed identity, and a sign-out is not interfered with.
 */
module SessionSafety {
  import opened Basics
  import opened AuthState
  import opened SessionProbes

  /** Equal identity generations mean the same identity as when the probe was started. */
  ghost predicate PendingOk(r: Runtime, p: Pending) {
    && p.handle.identityGeneration <= r.identityGeneration
    && p.handle.accessGeneration <= r.accessGeneration
    && (p.handle.identityGeneration == r.identityGeneration ==> p.identity == r.identity)
  }

  /** An outcome was applied rightly. */
  ghost predicate EntryOk(a: Applied) {
    && a.probe.handle.sequence == a.newest
    && (a.duringLogout ==> a.probe.handle.kind == LogoutProbe)
    && (Stable(a.probe.handle.kind) ==>
          && a.probe.handle.identityGeneration == a.runtime.identityGeneration
          && a.probe.handle.accessGeneration == a.runtime.accessGeneration
          && a.probe.identity == a.runtime.identity)
  }

  ghost predicate InOrder(applied: seq<Applied>) {
    forall i, j :: 0 <= i < j < |applied| ==> applied[i].probe.handle.sequence < applied[j].probe.handle.sequence
  }

  ghost predicate WaitingOk(r: Runtime, p: Probes) {
    forall q :: q in p.waiting ==> p.waiting[q].handle.sequence == q <= p.sequence && PendingOk(r, p.waiting[q])
  }

  ghost predicate LogOk(p: Probes) {
    && InOrder(p.applied)
    && forall i :: 0 <= i < |p.applied| ==>
         EntryOk(p.applied[i]) && p.applied[i].newest <= p.sequence && p.applied[i].newest !in p.waiting
  }

  ghost predicate ActiveOk(p: Probes) { p.active.Some? ==> p.active.value.sequence == p.sequence }

  /** While a sign-out owns the page, nothing protected is shown or connected. */
  ghost predicate LogoutOk(s: State) {
    s.flags.logoutInFlight ==> !s.view.live && s.view.phase != Authenticated
  }

  ghost predicate Sound(s: State) {
    Consistent(s.runtime) && ActiveOk(s.probes) && WaitingOk(s.runtime, s.probes) && LogOk(s.probes) && LogoutOk(s)
  }

  /** Nothing was applied; any probe that became active is newer than all before. */
  ghost predicate Grows(s: State, t: State) {
    && t.probes.sequence >= s.probes.sequence && t.probes.applied == s.probes.applied
    && (t.probes.active.Some? ==>
          t.probes.active == s.probes.active || t.probes.active.value.sequence > s.probes.sequence)
  }

  /** The runtime only moved forward, and a generation that stands still means the identity did. */
  ghost predicate Forward(r: Runtime, t: Runtime) {
    && Consistent(t) && t.identityGeneration >= r.identityGeneration && t.accessGeneration >= r.accessGeneration
    && (t.identityGeneration == r.identityGeneration ==> t.identity == r.identity)
  }

  lemma StepForward(r: Runtime, e: AuthState.Event)
    requires Consistent(r)
    ensures Forward(r, Step(r, e))
  {
    StepKeeps(r, e);
  }

  lemma CutForward(r: Runtime)
    requires Consistent(r)
    ensures Forward(r, Cut(r)) && Cut(r).identity == NOBODY && Cut(r).accessGeneration > r.accessGeneration
  {
    StepKeeps(r, Clear);
    StepKeeps(Step(r, Clear), AdvanceAccess);
  }

  /** What the steps do to the probe table, apart from applying an outcome. */
  ghost predicate Tidied(p: Probes, q: Probes) {
    && q.sequence >= p.sequence && q.waiting == p.waiting && q.applied == p.applied
    && (q.active.None? || (q.active == p.active && q.sequence == p.sequence))
  }

  /** The frame every quiet step fits: the runtime moves forward, the table is tidied, a sign-out stays hidden. */
  lemma QuietStep(s: State, t: State)
    requires Sound(s) && Forward(s.runtime, t.runtime) && Tidied(s.probes, t.probes) && LogoutOk(t)
    ensures Sound(t) && Grows(s, t)
  {
  }

  lemma IssueKeeps(s: State, kind: Kind, reason: Reason)
    requires Sound(s)
    ensures Sound(Issue(s, kind, reason)) && Grows(s, Issue(s, kind, reason))
  {
  }

  lemma GrowsTwice(s: State, t: State, u: State)
    requires Grows(s, t) && Grows(t, u)
    ensures Grows(s, u)
  {
  }

  lemma StartProbeKeeps(s: State, kind: Kind, reason: Reason)
    requires Sound(s)
    ensures Sound(StartProbe(s, kind, reason)) && Grows(s, StartProbe(s, kind, reason))
    ensures StartProbe(s, kind, reason).view == s.view && StartProbe(s, kind, reason).flags == s.flags
  {
    hide Sound, Grows, Issue;
    var t := s.(probes := InvalidateProbes(s.probes));
    InvalidateKeeps(s);
    IssueKeeps(t, kind, reason);
    IssueKeeps(s, kind, reason);
    IssueView(t, kind, reason);
    IssueView(s, kind, reason);
    GrowsTwice(s, t, Issue(t, kind, reason));
    SameGrows(s);
  }

  lemma InvalidateKeeps(s: State)
    requires Sound(s)
    ensures
      var t := s.(probes := InvalidateProbes(s.probes));
      Sound(t) && Grows(s, t)
  {
    QuietStep(s, s.(probes := InvalidateProbes(s.probes)));
  }

  lemma IssueView(s: State, kind: Kind, reason: Reason)
    ensures Issue(s, kind, reason).view == s.view && Issue(s, kind, reason).flags == s.flags
  {
  }

  lemma SameGrows(s: State)
    ensures Grows(s, s)
  {
  }

  lemma LockUiKeeps(s: State, next: Phase, reason: Reason)
    requires Sound(s) && next != Authenticated
    ensures Sound(LockUi(s, next, reason)) && Grows(s, LockUi(s, next, reason))
  {
    hide Cut;
    CutForward(s.runtime);
    QuietStep(s, LockUi(s, next, reason));
  }

  lemma ExpireKeeps(s: State)
    requires Sound(s)
    ensures Sound(Expire(s)) && Grows(s, Expire(s)) && Expire(s).flags.logoutInFlight == s.flags.logoutInFlight
  {
    hide Sound, Grows, LockUi, StartProbe;
    var locked := LockUi(s, Locked, Expired);
    LockUiKeeps(s, Locked, Expired);
    LockUiView(s, Locked, Expired);
    var shown := locked.(view := locked.view.(shown := Locked));
    ViewKeeps(locked, shown);
    StartProbeKeeps(shown, ForcedProbe, Expired);
    GrowsTwice(s, locked, shown);
    GrowsTwice(s, shown, Expire(s));
  }

  lemma LockUiView(s: State, next: Phase, reason: Reason)
    ensures LockUi(s, next, reason).view == s.view.(phase := next, reason := reason, live := false)
    ensures LockUi(s, next, reason).flags == s.flags.(bfcacheSuspended := false, unauthorizedDuringLogout := false)
  {
  }

  /** Timers, flags and views do not concern the probes. */
  lemma ViewKeeps(s: State, t: State)
    requires Sound(s) && t.runtime == s.runtime && t.probes == s.probes && LogoutOk(t)
    ensures Sound(t) && Grows(s, t)
  {
  }

  lemma ScheduleExpiryKeeps(s: State, past: bool)
    requires Sound(s)
    ensures Sound(ScheduleExpiry(s, past)) && Grows(s, ScheduleExpiry(s, past))
    ensures ScheduleExpiry(s, past).flags.logoutInFlight == s.flags.logoutInFlight
  {
    hide Sound, Grows, Expire;
    if past {
      ExpireKeeps(s);
    } else {
      LogoutOkFrom(s);
      ViewKeeps(s, ScheduleExpiry(s, past));
    }
  }

  lemma LogoutOkFrom(s: State)
    requires Sound(s)
    ensures LogoutOk(s) && Consistent(s.runtime)
  {
  }

  lemma InstallIdentityKeeps(s: State, st: Status, via: Method)
    requires Sound(s)
    ensures Sound(InstallIdentity(s, st, via)) && Grows(s, InstallIdentity(s, st, via))
    ensures InstallIdentity(s, st, via).flags == s.flags
  {
    hide Sound, Grows, Step, Forward;
    LogoutOkFrom(s);
    var t := InstallIdentity(s, st, via);
    StepForward(s.runtime, SetTrustedLocal(st.browserEnabled));
    StepForward(s.runtime, SetIngress(st.browserEnabled));
    StepForward(s.runtime, SetSession(st.expiresAt, st.browserEnabled, t.transport.revision));
    QuietStep(s, t);
  }

  lemma SignedInKeeps(s: State, t: State)
    requires Sound(s) && t.runtime == s.runtime && t.probes == s.probes && !t.flags.logoutInFlight
    ensures Sound(t) && Grows(s, t)
  {
    ViewKeeps(s, t);
  }

  lemma ApplyStatusKeeps(s: State, st: Status, reason: Reason)
    requires Sound(s) && !s.flags.logoutInFlight
    ensures Sound(ApplyStatus(s, st, reason)) && Grows(s, ApplyStatus(s, st, reason))
  {
    hide Sound, Grows, LockUi, InstallIdentity, ScheduleExpiry, SignedIn;
    LockUiKeeps(s, Locked, IngressRequired);
    LockUiKeeps(s, SetupRequired, Configuration);
    LockUiKeeps(s, Locked, if reason in {LoggedOut, Expired, Unauthorized} then reason else Unauthorized);
    LockUiKeeps(s, Locked, Unauthorized);
    if st.authenticated && st.via.Some? {
      var installed := InstallIdentity(s, st, st.via.value);
      InstallIdentityKeeps(s, st, st.via.value);
      var timed :=
        if st.via == Some(SessionAuth) then ScheduleExpiry(installed, st.past)
        else installed.(timers := installed.timers.(expiry := false));
      TimedKeeps(installed, st, timed);
      SignedInIs(timed);
      SignedInKeeps(timed, SignedIn(timed));
      GrowsTwice(s, installed, timed);
      GrowsTwice(s, timed, SignedIn(timed));
    }
  }

  lemma TimedKeeps(installed: State, st: Status, timed: State)
    requires Sound(installed)
    requires timed == if st.via == Some(SessionAuth) then ScheduleExpiry(installed, st.past)
                      else installed.(timers := installed.timers.(expiry := false))
    ensures Sound(timed) && Grows(installed, timed) && timed.flags.logoutInFlight == installed.flags.logoutInFlight
  {
    hide Sound, Grows, ScheduleExpiry;
    ScheduleExpiryKeeps(installed, st.past);
    LogoutOkFrom(installed);
    if st.via != Some(SessionAuth) { ViewKeeps(installed, timed); }
  }

  lemma SignedInIs(s: State)
    ensures SignedIn(s).runtime == s.runtime && SignedIn(s).probes == s.probes
    ensures SignedIn(s).flags.logoutInFlight == s.flags.logoutInFlight
  {
  }

  lemma RestoreKeeps(s: State, expires: bool, past: bool)
    requires Sound(s)
    ensures Sound(Restore(s, expires, past)) && Grows(s, Restore(s, expires, past))
  {
    hide Sound, Grows, ScheduleExpiry, StartProbe;
    var released := s.(flags := s.flags.(logoutInFlight := false));
    ViewKeeps(s, released);
    if s.flags.unauthorizedDuringLogout {
      var checking :=
        released.(flags := released.flags.(unauthorizedDuringLogout := false),
                  timers := released.timers.(expiry := false), view := View(Checking, Checking, Unauthorized, false));
      ViewKeeps(released, checking);
      StartProbeKeeps(checking, ForcedProbe, Unauthorized);
      GrowsTwice(s, released, checking);
      GrowsTwice(s, checking, StartProbe(checking, ForcedProbe, Unauthorized));
    } else {
      var scheduled := if expires then ScheduleExpiry(released, past) else released;
      ScheduleExpiryKeeps(released, past);
      SameGrows(released);
      var t := Restore(s, expires, past);
      SignedInKeeps(scheduled, t);
      GrowsTwice(s, released, scheduled);
      GrowsTwice(s, scheduled, t);
    }
  }

  lemma ApplyAnswerKeeps(s: State, p: Pending, st: Status)
    requires Sound(s) && (s.flags.logoutInFlight ==> p.handle.kind == LogoutProbe)
    ensures Sound(ApplyAnswer(s, p, st)) && Grows(s, ApplyAnswer(s, p, st))
  {
    hide Sound, Grows, LockUi, ApplyStatus, Restore;
    SameGrows(s);
    LockUiKeeps(s, Locked, CookieBlocked);
    LockUiKeeps(s, SetupRequired, Configuration);
    LockUiKeeps(s, Locked, LoggedOut);
    RestoreKeeps(s, HasExpiry(s), st.past);
    if !s.flags.logoutInFlight {
      ApplyStatusKeeps(s, st, Initial);
      ApplyStatusKeeps(s, st, p.reason);
    }
  }

  lemma ApplyFailureKeeps(s: State, p: Pending, f: Failure, past: bool)
    requires Sound(s)
    ensures Sound(ApplyFailure(s, p, f, past)) && Grows(s, ApplyFailure(s, p, f, past))
  {
    hide Sound, Grows, LockUi, Restore;
    SameGrows(s);
    LockUiKeeps(s, SetupRequired, Configuration);
    LockUiKeeps(s, PhaseUnreachable, Network);
    LockUiKeeps(s, Locked, ProtocolFault);
    LockUiKeeps(s, Locked, CookieBlocked);
    LockUiKeeps(s, Locked, Unauthorized);
    RestoreKeeps(s, HasExpiry(s), past);
  }

  /** As `Grows`, but the active probe's outcome may have been applied. */
  ghost predicate Moves(s: State, t: State) {
    && t.probes.sequence >= s.probes.sequence
    && (t.probes.active.Some? ==>
          t.probes.active == s.probes.active || t.probes.active.value.sequence > s.probes.sequence)
    && (t.probes.applied == s.probes.applied ||
        exists a :: t.probes.applied == s.probes.applied + [a] && s.probes.active.Some? &&
                    a.probe.handle.sequence == s.probes.active.value.sequence)
  }

  lemma SettleKeeps(s: State, q: nat, o: Outcome)
    requires Sound(s)
    ensures Sound(Settle(s, q, o)) && Moves(s, Settle(s, q, o))
  {
    hide ApplyAnswer, ApplyFailure;
    if q in s.probes.waiting {
      var p := s.probes.waiting[q];
      var arrived := s.(probes := s.probes.(waiting := s.probes.waiting - {q}, finishing := s.probes.finishing + {q}));
      if IsCurrent(arrived, p.handle) {
        var entry := Applied(p, s.probes.sequence, s.runtime, s.flags.logoutInFlight);
        var logged := arrived.(probes := arrived.probes.(applied := s.probes.applied + [entry]));
        LoggedOk(s, q, entry);
        hide Sound, Grows, IsCurrent;
        if o.Answer? { ApplyAnswerKeeps(logged, p, o.status); } else { ApplyFailureKeeps(logged, p, o.failure, o.past); }
        LoggedMoves(s, logged, Settle(s, q, o), entry);
      }
    }
  }

  /** A current probe's outcome may be logged: it is the newest, and its conditions hold. */
  lemma LoggedOk(s: State, q: nat, entry: Applied)
    requires Sound(s) && q in s.probes.waiting && IsCurrent(s, s.probes.waiting[q].handle)
    requires entry == Applied(s.probes.waiting[q], s.probes.sequence, s.runtime, s.flags.logoutInFlight)
    ensures
      var p := s.probes.(
        waiting := s.probes.waiting - {q}, finishing := s.probes.finishing + {q}, applied := s.probes.applied + [entry]);
      Sound(s.(probes := p))
    ensures s.probes.active.Some? && entry.probe.handle.sequence == s.probes.active.value.sequence
    ensures s.flags.logoutInFlight ==> entry.probe.handle.kind == LogoutProbe
  {
    var log := s.probes.applied + [entry];
    assert EntryOk(entry);
    forall i | 0 <= i < |s.probes.applied| ensures s.probes.applied[i].probe.handle.sequence < entry.probe.handle.sequence {
      assert s.probes.applied[i].newest != q;
    }
  }

  lemma LoggedMoves(s: State, logged: State, t: State, entry: Applied)
    requires Grows(logged, t) && logged.probes.active == s.probes.active && logged.probes.sequence == s.probes.sequence
    requires logged.probes.applied == s.probes.applied + [entry]
    requires s.probes.active.Some? && entry.probe.handle.sequence == s.probes.active.value.sequence
    ensures Moves(s, t)
  {
  }

  lemma FinishKeeps(s: State, q: nat)
    requires Sound(s)
    ensures Sound(Finish(s, q)) && Grows(s, Finish(s, q))
  {
  }
}
