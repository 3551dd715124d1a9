/**
 The browser session protocol as a state machine. Between two waits the provider's
 code runs without interruption, so each such stretch is one step; replies, timers,
 page events and user actions arrive in any order.
 */
module SessionProbes {
  import opened Basics
  import opened AuthState

  datatype Kind =
    | InitialProbe | FocusProbe | CsrfRefresh | SseError | LoginProbe | LogoutProbe | ForcedProbe | UnauthorizedProbe
    | BfcacheProbe

  datatype Phase = Checking | SigningOut | Authenticated | Locked | SetupRequired | PhaseUnreachable

  datatype Reason =
    | Initial | Expired | LoggedOut | Unauthorized | CookieBlocked | Configuration | IngressRequired | Network
    | OriginRejected | ProtocolFault

  datatype Handle = Handle(sequence: nat, identityGeneration: nat, accessGeneration: nat, kind: Kind)

  /** A probe that was started. `identity` remembers who was signed in then. */
  datatype Pending = Pending(handle: Handle, reason: Reason, identity: Identity)

  /** An outcome that was applied: by which probe, and how things stood at that moment. */
  datatype Applied = Applied(probe: Pending, newest: nat, runtime: Runtime, duringLogout: bool)

  /** Probes started, waiting for a reply, or answered but not yet cleaned up after; and the outcomes applied so far. */
  datatype Probes = Probes(
    sequence: nat, active: Option<Handle>, focusRun: Option<nat>, waiting: map<nat, Pending>, finishing: set<nat>,
    applied: seq<Applied>)

  /**
   `deletes` sign-out requests wait for Core, `ending` calls wait to finish, `endingCsrf` of another kind too.
   `logoutBusy` is what disables the buttons that sign out.
   */
  datatype Flags = Flags(
    mounted: bool, loginInFlight: bool, logoutInFlight: bool, unauthorizedDuringLogout: bool, bfcacheSuspended: bool,
    logoutBusy: bool, deletes: nat, ending: nat, endingCsrf: nat)

  datatype Timers = Timers(expiry: bool, focus: bool, revalidate: bool)

  /** `shown` is the phase of the last rendering; `live` says whether the live connection may run. */
  datatype View = View(phase: Phase, shown: Phase, reason: Reason, live: bool)

  datatype State = State(
    runtime: Runtime, transport: Transport, probes: Probes, flags: Flags, timers: Timers, view: View)

  const START := State(
    FRESH, Transport(None, 0, false), Probes(0, None, None, map[], {}, []),
    Flags(false, false, false, false, false, false, 0, 0, 0), Timers(false, false, false),
    View(Checking, Checking, Initial, false))

  /** Probes that must not disturb the identity they were started under. */
  predicate Stable(k: Kind) { k.FocusProbe? || k.CsrfRefresh? || k.SseError? }

  /* ---------------- building blocks ---------------- */

  function InvalidateProbes(p: Probes): Probes { p.(sequence := p.sequence + 1, active := None, focusRun := None) }

  const NO_TIMERS := Timers(false, false, false)

  function NoCredentials(t: Transport): Transport {
    if !t.sessionActive && t.csrfToken.None? then t else Transport(None, t.revision + 1, false)
  }

  /** Clearing the identity, and making protected work stale even when there was none to clear. */
  function Cut(r: Runtime): Runtime {
    var cleared := Step(r, Clear);
    if cleared.accessGeneration == r.accessGeneration then Step(cleared, AdvanceAccess) else cleared
  }

  function LockUi(s: State, next: Phase, reason: Reason): State {
    State(
      Cut(s.runtime), NoCredentials(s.transport), InvalidateProbes(s.probes),
      s.flags.(bfcacheSuspended := false, unauthorizedDuringLogout := false), NO_TIMERS,
      s.view.(phase := next, reason := reason, live := false))
  }

  function Issue(s: State, kind: Kind, reason: Reason): State {
    var n := s.probes.sequence + 1;
    var h := Handle(n, s.runtime.identityGeneration, s.runtime.accessGeneration, kind);
    s.(probes := s.probes.(
         sequence := n, active := Some(h), waiting := s.probes.waiting[n := Pending(h, reason, s.runtime.identity)],
         focusRun := if kind == FocusProbe then Some(n) else s.probes.focusRun))
  }

  predicate FocusRuns(s: State) {
    && s.probes.focusRun.Some? && s.probes.active.Some? && s.probes.active.value.kind == FocusProbe
    && s.probes.active.value.accessGeneration == s.runtime.accessGeneration
  }

  /** A probe that owns a transition is in flight. */
  predicate Owned(p: Probes) {
    p.active.Some? && !Stable(p.active.value.kind) && p.active.value.sequence == p.sequence
  }

  function StartProbe(s: State, kind: Kind, reason: Reason): State {
    if s.flags.logoutInFlight && kind != LogoutProbe then s
    else if kind == FocusProbe && FocusRuns(s) then s
    else if !Stable(kind) then Issue(s.(probes := InvalidateProbes(s.probes)), kind, reason)
    else if Owned(s.probes) then s
    else Issue(s, kind, reason)
  }

  predicate IsCurrent(s: State, h: Handle) {
    && s.flags.mounted
    && s.probes.active.Some? && s.probes.active.value.sequence == h.sequence
    && h.sequence == s.probes.sequence
    && !(s.flags.logoutInFlight && h.kind != LogoutProbe)
    && (if Stable(h.kind) then
          h.identityGeneration == s.runtime.identityGeneration && h.accessGeneration == s.runtime.accessGeneration
        else if h.kind == LoginProbe then
          !s.flags.bfcacheSuspended && h.accessGeneration == s.runtime.accessGeneration
        else if h.kind == LogoutProbe then
          h.accessGeneration == s.runtime.accessGeneration
        else true)
  }

  /** Locking because the session ran out, then asking Core. */
  function Expire(s: State): State {
    var locked := LockUi(s, Locked, Expired);
    StartProbe(locked.(view := locked.view.(shown := Locked)), ForcedProbe, Expired)
  }

  function ScheduleExpiry(s: State, past: bool): State {
    if past then Expire(s) else s.(timers := s.timers.(expiry := true))
  }

  /** A reply of the session endpoint; `past` says whether its expiry time is already behind us. */
  datatype Status = Status(
    authenticated: bool, via: Option<Method>, browserEnabled: bool, ingressEnabled: bool, expiresAt: string,
    csrfToken: string, past: bool)

  /** `Foreign` is a failure that is not an error of the API layer. */
  datatype Failure = UnexpectedBearer | Unreachable | Malformed | IncompleteSession | Stale | OtherApi | Foreign

  datatype Outcome = Answer(status: Status) | Failure(failure: Failure, past: bool)

  /** Who the reply says is signed in; a session brings a new token with it. */
  function InstallIdentity(s: State, st: Status, via: Method): State {
    match via
    case TrustedLocal =>
      s.(transport := NoCredentials(s.transport), runtime := Step(s.runtime, SetTrustedLocal(st.browserEnabled)))
    case Ingress =>
      s.(transport := NoCredentials(s.transport), runtime := Step(s.runtime, SetIngress(st.browserEnabled)))
    case SessionAuth =>
      var t := TransportStep(_ => true, s.transport, Install(st.csrfToken));
      s.(transport := t, runtime := Step(s.runtime, SetSession(st.expiresAt, st.browserEnabled, t.revision)))
  }

  function SignedIn(s: State): State {
    s.(flags := s.flags.(bfcacheSuspended := false, unauthorizedDuringLogout := false),
       view := s.view.(live := true, phase := Authenticated, reason := Initial))
  }

  function ApplyStatus(s: State, st: Status, reason: Reason): State {
    if !st.authenticated then
      if st.ingressEnabled && !st.browserEnabled then LockUi(s, Locked, IngressRequired)
      else if !st.browserEnabled then LockUi(s, SetupRequired, Configuration)
      else LockUi(s, Locked, if reason in {LoggedOut, Expired, Unauthorized} then reason else Unauthorized)
    else if st.via.None? then LockUi(s, Locked, Unauthorized)
    else
      var installed := InstallIdentity(s, st, st.via.value);
      if st.via == Some(SessionAuth) then SignedIn(ScheduleExpiry(installed, st.past))
      else SignedIn(installed.(timers := installed.timers.(expiry := false)))
  }

  /** After a failed sign-out: back to the old identity, or to a fresh probe if it was refused meanwhile. */
  function Restore(s: State, expires: bool, past: bool): State {
    var released := s.(flags := s.flags.(logoutInFlight := false));
    if s.flags.unauthorizedDuringLogout then
      StartProbe(
        released.(flags := released.flags.(unauthorizedDuringLogout := false),
                  timers := released.timers.(expiry := false), view := View(Checking, Checking, Unauthorized, false)),
        ForcedProbe, Unauthorized)
    else
      var scheduled := if expires then ScheduleExpiry(released, past) else released;
      scheduled.(view := scheduled.view.(live := true, phase := Authenticated, reason := Initial))
  }

  function HasExpiry(s: State): bool { s.runtime.identity.expiresAt.Some? }

  function ApplyAnswer(s: State, p: Pending, st: Status): State {
    if p.handle.kind == LoginProbe then
      if s.flags.bfcacheSuspended then s
      else if !st.authenticated || st.via != Some(SessionAuth) then LockUi(s, Locked, CookieBlocked)
      else ApplyStatus(s, st, Initial)
    else if p.handle.kind == LogoutProbe then
      if !st.authenticated then
        if !st.browserEnabled then LockUi(s, SetupRequired, Configuration) else LockUi(s, Locked, LoggedOut)
      else Restore(s, HasExpiry(s), st.past)
    else ApplyStatus(s, st, p.reason)
  }

  /** A probe that keeps a page signed in when Core cannot be asked. */
  predicate Retained(s: State, k: Kind) { Stable(k) && s.view.shown == Authenticated }

  function ApplyFailure(s: State, p: Pending, f: Failure, past: bool): State {
    var k := p.handle.kind;
    if f == UnexpectedBearer then LockUi(s, SetupRequired, Configuration)
    else if k == LoginProbe && f != Foreign then
      if f == Unreachable then LockUi(s, PhaseUnreachable, Network)
      else if f == Malformed then LockUi(s, Locked, ProtocolFault)
      else LockUi(s, Locked, CookieBlocked)
    else if f == IncompleteSession then LockUi(s, Locked, Unauthorized)
    else if f == Malformed then LockUi(s, Locked, ProtocolFault)
    else if f == Stale then s
    else if Retained(s, k) then s
    else if f == Unreachable && k == LogoutProbe then Restore(s, HasExpiry(s), past)
    else if k == CsrfRefresh && s.view.shown == SigningOut then Restore(s, HasExpiry(s), past)
    else LockUi(s, PhaseUnreachable, Network)
  }

  function ApplyOutcome(s: State, p: Pending, o: Outcome): State {
    match o
    case Answer(st) => ApplyAnswer(s, p, st)
    case Failure(f, past) => ApplyFailure(s, p, f, past)
  }

  /** The reply of the probe numbered `q` arrives. */
  function Settle(s: State, q: nat, o: Outcome): State {
    if q !in s.probes.waiting then s
    else
      var p := s.probes.waiting[q];
      var arrived := s.(probes := s.probes.(waiting := s.probes.waiting - {q}, finishing := s.probes.finishing + {q}));
      if !IsCurrent(arrived, p.handle) then arrived
      else
        var entry := Applied(p, s.probes.sequence, s.runtime, s.flags.logoutInFlight);
        ApplyOutcome(arrived.(probes := arrived.probes.(applied := s.probes.applied + [entry])), p, o)
  }

  /** The clean-up after an answered probe. */
  function Finish(s: State, q: nat): State {
    if q !in s.probes.finishing then s
    else
      s.(probes := s.probes.(
           finishing := s.probes.finishing - {q},
           active := if s.probes.active.Some? && s.probes.active.value.sequence == q then None else s.probes.active,
           focusRun := if s.probes.focusRun == Some(q) then None else s.probes.focusRun))
  }

  /* ---------------- steps ---------------- */

  /** How signing in at Core went before any probe. */
  datatype Bootstrap = Opened | TokenRefused | NotConfigured | OriginRefused | CoreUnreachable | BadReply | OtherRefusal

  /** How the sign-out request ended. */
  datatype Deletion =
    | Deleted | DeleteRefused401 | DeleteCsrf | DeleteUnreachable | DeleteProtocol | DeleteStale | DeleteOther

  datatype Event =
    | Mount | Unmount | Render
    | ProbeReply(sequence: nat, outcome: Outcome) | ProbeEnds(sequence: nat)
    | Protected401 | RevalidateWanted(now: int) | RevalidateFires | SseProbe
    | Focused(past: bool) | FocusFires | ExpiryFires
    | PageHide | PageShow(persisted: bool, past: bool)
    | LoginStarts | LoginSettles(bootstrap: Bootstrap) | LoginEnds
    | LogoutStarts | LogoutSettles(deletion: Deletion, hadExpiry: bool, past: bool) | LogoutEnds(csrf: bool)
    | Retry

  function SetView(s: State, phase: Phase, reason: Reason): State { s.(view := s.view.(phase := phase, reason := reason)) }

  function Shown(s: State): State { s.(view := s.view.(shown := s.view.phase)) }

  function HandleUnauthorized(s: State): State {
    if s.flags.logoutInFlight then
      s.(flags := s.flags.(unauthorizedDuringLogout := true), runtime := Step(s.runtime, ReleaseDedupe))
    else
      StartProbe(
        s.(timers := s.timers.(focus := false, revalidate := false), runtime := Step(s.runtime, Clear),
           transport := NoCredentials(s.transport), view := View(Checking, Checking, Unauthorized, false)),
        UnauthorizedProbe, Unauthorized)
  }

  /** Coming back to a page whose session has run out locks it at once. */
  predicate Overdue(s: State, past: bool) { s.view.shown == Authenticated && HasExpiry(s) && past }

  function FocusPage(s: State, past: bool): State {
    if Overdue(s, past) then Expire(s)
    else if s.view.shown != Authenticated || s.flags.logoutInFlight || s.flags.bfcacheSuspended then s
    else s.(timers := s.timers.(focus := true))
  }

  function HidePage(s: State): State {
    s.(probes := InvalidateProbes(s.probes), timers := NO_TIMERS, flags := s.flags.(bfcacheSuspended := true),
       runtime := Step(s.runtime, AdvanceAccess), view := View(Checking, Checking, Initial, false))
  }

  function StartLogout(s: State): State {
    s.(flags := s.flags.(logoutInFlight := true, logoutBusy := true, deletes := s.flags.deletes + 1), timers := NO_TIMERS,
       probes := InvalidateProbes(s.probes), runtime := Step(s.runtime, AdvanceAccess),
       view := View(SigningOut, SigningOut, LoggedOut, false))
  }

  function SettleLogin(s: State, b: Bootstrap): State {
    match b
    case Opened => StartProbe(s, LoginProbe, Initial)
    case TokenRefused => SetView(s, Locked, Unauthorized)
    case NotConfigured => LockUi(s, SetupRequired, Configuration)
    case OriginRefused => SetView(s, Locked, OriginRejected)
    case CoreUnreachable => LockUi(s, PhaseUnreachable, Network)
    case BadReply => LockUi(s, Locked, ProtocolFault)
    case OtherRefusal => SetView(s, Locked, Unauthorized)
  }

  function SettleLogout(s: State, d: Deletion, hadExpiry: bool, past: bool): State {
    match d
    case Deleted => StartProbe(s, LogoutProbe, LoggedOut)
    case DeleteRefused401 => StartProbe(s, LogoutProbe, LoggedOut)
    case DeleteStale => StartProbe(s, LogoutProbe, LoggedOut)
    case DeleteCsrf => s
    case DeleteProtocol => LockUi(s, Locked, ProtocolFault)
    case DeleteUnreachable => Restore(s, hadExpiry || HasExpiry(s), past)
    case DeleteOther => Restore(s, hadExpiry || HasExpiry(s), past)
  }

  function Next(s: State, e: Event): State {
    match e
    case Mount => StartProbe(s.(flags := s.flags.(mounted := true)), InitialProbe, Initial)
    case Render => Shown(s)
    case ProbeReply(q, o) => Settle(s, q, o)
    case ProbeEnds(q) => Finish(s, q)
    case LoginSettles(b) =>
      if !s.flags.loginInFlight then s
      else
        var settled := SettleLogin(s, b);
        if b.Opened? then settled else settled.(flags := settled.flags.(loginInFlight := false))
    case LoginEnds => s.(flags := s.flags.(loginInFlight := false))
    case LogoutSettles(d, had, past) =>
      if s.flags.deletes == 0 then s
      else
        var f := s.flags;
        SettleLogout(
          s.(flags := f.(deletes := f.deletes - 1, ending := if d == DeleteCsrf then f.ending else f.ending + 1,
                         endingCsrf := if d == DeleteCsrf then f.endingCsrf + 1 else f.endingCsrf)),
          d, had, past)
    case LogoutEnds(csrf) =>
      var f := s.flags;
      if csrf then
        if f.endingCsrf == 0 then s
        else
          StartProbe(
            s.(flags := f.(logoutInFlight := false, logoutBusy := false, endingCsrf := f.endingCsrf - 1)), CsrfRefresh, Initial)
      else if f.ending == 0 then s
      else s.(flags := f.(logoutInFlight := false, logoutBusy := false, ending := f.ending - 1))
    case Protected401 =>
      var told := s.(runtime := Step(s.runtime, NotifyUnauthorized));
      if s.flags.mounted && Announces(s.runtime, NotifyUnauthorized) then HandleUnauthorized(told) else told
    case RevalidateWanted(now) =>
      var told := s.(runtime := Step(s.runtime, NotifyRevalidate(now)));
      if s.flags.mounted && now - s.runtime.revalidatedAt >= DEBOUNCE_MS && !s.flags.logoutInFlight
      then told.(timers := told.timers.(revalidate := true)) else told
    case LoginStarts =>
      if s.flags.loginInFlight then s
      else s.(flags := s.flags.(loginInFlight := true), probes := InvalidateProbes(s.probes))
    case LogoutStarts => if s.flags.logoutInFlight then s else StartLogout(s)
    case Retry => StartProbe(s.(view := s.view.(phase := Checking)), ForcedProbe, Initial)
    case Unmount =>
      s.(flags := s.flags.(mounted := false, unauthorizedDuringLogout := false), timers := NO_TIMERS,
         probes := InvalidateProbes(s.probes), runtime := Step(s.runtime, AdvanceAccess),
         transport := NoCredentials(s.transport), view := s.view.(live := false))
    case _ => if s.flags.mounted then Noticed(s, e) else s
  }

  /** Timers and page events reach the provider only while it is mounted. */
  function Noticed(s: State, e: Event): State {
    match e
    case RevalidateFires =>
      if !s.timers.revalidate then s
      else
        var fired := s.(timers := s.timers.(revalidate := false));
        if s.flags.logoutInFlight then fired else StartProbe(fired, CsrfRefresh, Initial)
    case SseProbe =>
      if s.flags.logoutInFlight || s.flags.bfcacheSuspended || s.view.shown != Authenticated then s
      else StartProbe(s, SseError, Unauthorized)
    case Focused(past) => FocusPage(s, past)
    case FocusFires =>
      if !s.timers.focus then s
      else
        var fired := s.(timers := s.timers.(focus := false));
        if s.view.shown != Authenticated || s.flags.logoutInFlight || s.flags.bfcacheSuspended then fired
        else StartProbe(fired, FocusProbe, Initial)
    case ExpiryFires => if !s.timers.expiry then s else Expire(s.(timers := s.timers.(expiry := false)))
    case PageHide => HidePage(s)
    case PageShow(persisted, past) =>
      if persisted then
        StartProbe(
          s.(timers := s.timers.(focus := false, revalidate := false), flags := s.flags.(bfcacheSuspended := true),
             view := View(Checking, Checking, Initial, false)),
          BfcacheProbe, Initial)
      else FocusPage(s, past)
    case _ => s
  }

  function RunAll(s: State, events: seq<Event>): State {
    if events == [] then s else Next(RunAll(s, events[..|events| - 1]), events[|events| - 1])
  }
}
