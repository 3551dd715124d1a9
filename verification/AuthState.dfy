/**
 Browser identity and its generations: the identity tuple with its two counters,
 and the transport-private session credentials with their revision. Each is a
 value changed by events; the counters record exactly which changes happened.
 */
module AuthState {
  import opened Basics

  datatype Method = TrustedLocal | SessionAuth | Ingress

  datatype Identity = Identity(via: Option<Method>, expiresAt: Option<string>, revision: nat, browserEnabled: bool)

  const NOBODY := Identity(None, None, 0, false)

  /** `notifiedFor` is the access generation last told to be unauthorized; `revalidatedAt` a time in milliseconds. */
  datatype Runtime = Runtime(
    identity: Identity, identityGeneration: nat, accessGeneration: nat, notifiedFor: Option<nat>, revalidatedAt: int)

  const FRESH := Runtime(NOBODY, 0, 0, None, 0)

  datatype Event =
    | SetTrustedLocal(browserEnabled: bool)
    | SetIngress(browserEnabled: bool)
    | SetSession(expiresAt: string, browserEnabled: bool, revision: nat)
    | Clear
    | AdvanceAccess
    | NotifyUnauthorized
    | ReleaseDedupe
    | NotifyRevalidate(now: int)

  function Bumped(r: Runtime, next: Identity): Runtime {
    Runtime(next, r.identityGeneration + 1, r.accessGeneration + 1, None, 0)
  }

  function Become(r: Runtime, next: Identity): Runtime { if r.identity == next then r else Bumped(r, next) }

  const DEBOUNCE_MS := 750

  function Step(r: Runtime, e: Event): Runtime {
    match e
    case SetTrustedLocal(b) => Become(r, Identity(Some(TrustedLocal), None, 0, b))
    case SetIngress(b) => Become(r, Identity(Some(Ingress), None, 0, b))
    case SetSession(x, b, n) => Become(r, Identity(Some(SessionAuth), Some(x), n, b))
    case Clear =>
      if r.identity.via.None? && r.identity.revision == 0 && !r.identity.browserEnabled then r else Bumped(r, NOBODY)
    case AdvanceAccess => r.(accessGeneration := r.accessGeneration + 1, notifiedFor := None, revalidatedAt := 0)
    case NotifyUnauthorized => r.(notifiedFor := Some(r.accessGeneration))
    case ReleaseDedupe => r.(notifiedFor := None)
    case NotifyRevalidate(now) => if now - r.revalidatedAt < DEBOUNCE_MS then r else r.(revalidatedAt := now)
  }

  function Run(r: Runtime, events: seq<Event>): Runtime {
    if events == [] then r else Step(Run(r, events[..|events| - 1]), events[|events| - 1])
  }

  /** Nobody is signed in only as nobody: without a method the rest of the tuple is empty. */
  ghost predicate Consistent(r: Runtime) { r.identity.via.None? ==> r.identity == NOBODY }

  lemma StepKeeps(r: Runtime, e: Event)
    requires Consistent(r)
    ensures
      var t := Step(r, e);
      && Consistent(t)
      && t.identityGeneration == r.identityGeneration + (if t.identity != r.identity then 1 else 0)
      && t.accessGeneration >= r.accessGeneration
      && (t.identity != r.identity ==> t.accessGeneration == r.accessGeneration + 1)
  {
  }

  /** How many of the steps changed the identity tuple. */
  function Changes(r: Runtime, events: seq<Event>): nat {
    if events == [] then 0
    else
      var before := Run(r, events[..|events| - 1]);
      Changes(r, events[..|events| - 1]) + if Step(before, events[|events| - 1]).identity != before.identity then 1 else 0
  }

  /**
   Over every run the identity generation counts exactly the changes of the
   identity tuple, both generations are monotone, and access advances at least
   as often as identity.
   */
  lemma {:induction false} GenerationsCountChanges(r: Runtime, events: seq<Event>)
    requires Consistent(r)
    ensures
      var t := Run(r, events);
      && Consistent(t)
      && t.identityGeneration == r.identityGeneration + Changes(r, events)
      && t.accessGeneration >= r.accessGeneration + Changes(r, events)
  {
    hide Step;
    if events != [] {
      GenerationsCountChanges(r, events[..|events| - 1]);
      StepKeeps(Run(r, events[..|events| - 1]), events[|events| - 1]);
    }
  }

  lemma {:induction false} RunSplit(r: Runtime, a: seq<Event>, b: seq<Event>)
    ensures Run(r, a + b) == Run(Run(r, a), b)
  {
    hide Step;
    if b == [] {
      assert a + b == a;
    } else {
      RunSplit(r, a, b[..|b| - 1]);
      assert (a + b)[..|a + b| - 1] == a + b[..|b| - 1];
    }
  }

  /** Nothing that makes protected work stale happens during `events`. */
  ghost predicate Quiet(r: Runtime, events: seq<Event>) {
    forall k :: 0 <= k <= |events| ==>
      && Run(r, events[..k]).accessGeneration == r.accessGeneration
      && Run(r, events[..k]).identityGeneration == r.identityGeneration
      && Run(r, events[..k]).identity == r.identity
  }

  /** An access generation seen unchanged was unchanged throughout, and so was the identity. */
  lemma {:induction false} SameAccessMeansQuiet(r: Runtime, events: seq<Event>)
    requires Consistent(r)
    ensures Run(r, events).accessGeneration == r.accessGeneration <==> Quiet(r, events)
  {
    hide Step, Run;
    assert events[..|events|] == events;
    if Run(r, events).accessGeneration == r.accessGeneration {
      forall k | 0 <= k <= |events|
        ensures
          && Run(r, events[..k]).accessGeneration == r.accessGeneration
          && Run(r, events[..k]).identityGeneration == r.identityGeneration
          && Run(r, events[..k]).identity == r.identity
      {
        assert events == events[..k] + events[k..];
        RunSplit(r, events[..k], events[k..]);
        GenerationsCountChanges(r, events[..k]);
        GenerationsCountChanges(Run(r, events[..k]), events[k..]);
        NoChanges(r, events[..k]);
      }
    }
  }

  lemma {:induction false} NoChanges(r: Runtime, events: seq<Event>)
    requires Changes(r, events) == 0
    ensures Run(r, events).identity == r.identity
  {
    hide Step;
    if events != [] { NoChanges(r, events[..|events| - 1]); }
  }

  /** Whether an event makes the unauthorized listeners run. */
  predicate Announces(r: Runtime, e: Event) { e.NotifyUnauthorized? && r.notifiedFor != Some(r.accessGeneration) }

  function Announcements(r: Runtime, events: seq<Event>): nat {
    if events == [] then 0
    else
      Announcements(r, events[..|events| - 1]) +
      if Announces(Run(r, events[..|events| - 1]), events[|events| - 1]) then 1 else 0
  }

  /** Unless the dedupe mark is released, one access generation announces a lost session at most once. */
  lemma {:induction false} AtMostOneAnnouncement(r: Runtime, events: seq<Event>)
    requires Consistent(r) && Quiet(r, events) && forall e :: e in events ==> !e.ReleaseDedupe?
    ensures Announcements(r, events) <= 1
    ensures Announcements(r, events) == 1 ==> Run(r, events).notifiedFor == Some(r.accessGeneration)
    ensures r.notifiedFor == Some(r.accessGeneration) ==>
              Announcements(r, events) == 0 && Run(r, events).notifiedFor == r.notifiedFor
  {
    if events != [] {
      var init, last := events[..|events| - 1], events[|events| - 1];
      assert events == init + [last];
      forall k | 0 <= k <= |init| ensures init[..k] == events[..k] {}
      AtMostOneAnnouncement(r, init);
      assert events[..|events|] == events;
      assert last in events;
      QuietEvent(Run(r, init), last);
    }
  }

  lemma QuietEvent(r: Runtime, e: Event)
    requires Step(r, e).accessGeneration == r.accessGeneration && !e.ReleaseDedupe?
    ensures Step(r, e).notifiedFor == if e.NotifyUnauthorized? then Some(r.accessGeneration) else r.notifiedFor
  {
  }

  /** Whether an event makes the revalidation listeners run. */
  predicate Wakes(r: Runtime, e: Event) { e.NotifyRevalidate? && Step(r, e).revalidatedAt != r.revalidatedAt }

  lemma QuietWake(r: Runtime, e: Event)
    requires Step(r, e).accessGeneration == r.accessGeneration
    ensures Step(r, e).revalidatedAt >= r.revalidatedAt
    ensures Wakes(r, e) ==> Step(r, e).revalidatedAt == e.now && e.now - r.revalidatedAt >= 750
  {
  }

  lemma QuietInit(r: Runtime, events: seq<Event>)
    requires events != [] && Quiet(r, events)
    ensures
      var init := events[..|events| - 1];
      Quiet(r, init) && Step(Run(r, init), events[|events| - 1]).accessGeneration == Run(r, init).accessGeneration
  {
    hide Step;
    var init := events[..|events| - 1];
    forall k | 0 <= k <= |init| ensures init[..k] == events[..k] {}
    assert events[..|events|] == events;
    assert Run(r, events[..|events|]).accessGeneration == r.accessGeneration;
  }

  lemma {:induction false} LastWake(r: Runtime, events: seq<Event>, i: nat)
    requires Quiet(r, events) && i < |events| && Wakes(Run(r, events[..i]), events[i])
    ensures Run(r, events).revalidatedAt >= events[i].now
  {
    hide Step, Quiet, Wakes;
    var init := events[..|events| - 1];
    QuietInit(r, events);
    QuietWake(Run(r, init), events[|events| - 1]);
    if i < |init| {
      assert init[..i] == events[..i];
      LastWake(r, init, i);
    }
  }

  /** Under one access generation the listeners are woken at most once in 750 milliseconds. */
  lemma WakesAreSpaced(r: Runtime, events: seq<Event>, i: nat, j: nat)
    requires Quiet(r, events) && i < j < |events|
    requires Wakes(Run(r, events[..i]), events[i]) && Wakes(Run(r, events[..j]), events[j])
    ensures events[j].now - events[i].now >= 750
  {
    hide Step, Run, Wakes;
    var before, upTo := events[..j], events[..j + 1];
    forall k | 0 <= k <= j ensures before[..k] == events[..k] {}
    assert Quiet(r, before);
    assert before[..i] == events[..i];
    LastWake(r, before, i);
    assert Run(r, upTo).accessGeneration == r.accessGeneration && Run(r, before).accessGeneration == r.accessGeneration;
    assert upTo[..j] == before;
    RunOne(r, before, events[j]);
    assert before + [events[j]] == upTo;
    QuietWake(Run(r, before), events[j]);
  }

  lemma RunOne(r: Runtime, events: seq<Event>, e: Event)
    ensures Run(r, events + [e]) == Step(Run(r, events), e)
  {
    assert (events + [e])[..|events|] == events;
  }

  /* ---------------- transport credentials ---------------- */

  datatype Transport = Transport(csrfToken: Option<string>, revision: nat, sessionActive: bool)

  datatype TransportEvent = Install(token: string) | ClearCredentials

  /** `valid` is the token grammar. */
  function TransportStep(valid: string -> bool, t: Transport, e: TransportEvent): Transport {
    match e
    case Install(token) =>
      if !valid(token) || (t.sessionActive && t.csrfToken == Some(token)) then t
      else Transport(Some(token), t.revision + 1, true)
    case ClearCredentials =>
      if !t.sessionActive && t.csrfToken.None? then t else Transport(None, t.revision + 1, false)
  }

  ghost predicate TransportOk(valid: string -> bool, t: Transport) {
    t.sessionActive == t.csrfToken.Some? && (t.csrfToken.Some? ==> valid(t.csrfToken.value))
  }

  function TransportRun(valid: string -> bool, t: Transport, events: seq<TransportEvent>): Transport {
    if events == [] then t else TransportStep(valid, TransportRun(valid, t, events[..|events| - 1]), events[|events| - 1])
  }

  /** A revision names a credential: over every run, an unchanged revision means an unchanged token. */
  lemma {:induction false} RevisionNamesToken(valid: string -> bool, t: Transport, events: seq<TransportEvent>)
    requires TransportOk(valid, t)
    ensures
      var u := TransportRun(valid, t, events);
      TransportOk(valid, u) && u.revision >= t.revision && (u.revision == t.revision ==> u == t)
  {
    if events != [] { RevisionNamesToken(valid, t, events[..|events| - 1]); }
  }
}
