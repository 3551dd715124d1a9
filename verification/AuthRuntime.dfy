/** The two stateful browser modules: the auth runtime and the session transport. */
module AuthRuntimeClass {
  import opened Basics
  import opened AuthState

  class AuthRuntime {
    var authMethod: Option<Method>
    var expiresAt: Option<string>
    var browserSessionEnabled: bool
    var credentialRevision: nat
    var identityGeneration: nat
    var accessGeneration: nat
    var unauthorizedNotifiedFor: Option<nat>
    var revalidateNotifiedAt: int

    function Current(): Identity reads this { Identity(authMethod, expiresAt, credentialRevision, browserSessionEnabled) }

    function Now(): Runtime reads this {
      Runtime(Current(), identityGeneration, accessGeneration, unauthorizedNotifiedFor, revalidateNotifiedAt)
    }

    constructor ()
      ensures Now() == FRESH
    {
      authMethod, expiresAt, browserSessionEnabled, credentialRevision := None, None, false, 0;
      identityGeneration, accessGeneration, unauthorizedNotifiedFor, revalidateNotifiedAt := 0, 0, None, 0;
    }

    method BumpIdentityChange()
      modifies this
      ensures Now() == Bumped(old(Now()), old(Current()))
    {
      identityGeneration := identityGeneration + 1;
      accessGeneration := accessGeneration + 1;
      unauthorizedNotifiedFor := None;
      revalidateNotifiedAt := 0;
    }

    /** Takes on a new identity; an unchanged tuple changes nothing. */
    method Become(next: Identity)
      modifies this
      ensures Now() == AuthState.Become(old(Now()), next)
    {
      if Current() == next { return; }
      authMethod, expiresAt := next.via, next.expiresAt;
      credentialRevision, browserSessionEnabled := next.revision, next.browserEnabled;
      BumpIdentityChange();
    }

    method SetTrustedLocal(enabled: bool)
      modifies this
      ensures Now() == Step(old(Now()), Event.SetTrustedLocal(enabled))
    {
      Become(Identity(Some(TrustedLocal), None, 0, enabled));
    }

    method SetHomeAssistantIngress(enabled: bool)
      modifies this
      ensures Now() == Step(old(Now()), SetIngress(enabled))
    {
      Become(Identity(Some(Ingress), None, 0, enabled));
    }

    method SetSession(expires: string, enabled: bool, revision: nat)
      modifies this
      ensures Now() == Step(old(Now()), Event.SetSession(expires, enabled, revision))
    {
      Become(Identity(Some(SessionAuth), Some(expires), revision, enabled));
    }

    method Clear()
      modifies this
      ensures Now() == Step(old(Now()), Event.Clear)
    {
      if authMethod.None? && credentialRevision == 0 && !browserSessionEnabled { return; }
      authMethod, expiresAt, credentialRevision, browserSessionEnabled := None, None, 0, false;
      BumpIdentityChange();
    }

    method AdvanceAccessGeneration()
      modifies this
      ensures Now() == Step(old(Now()), AdvanceAccess)
    {
      accessGeneration := accessGeneration + 1;
      unauthorizedNotifiedFor := None;
      revalidateNotifiedAt := 0;
    }

    /** `announced` says whether the listeners are run. */
    method NotifyUnauthorized() returns (announced: bool)
      modifies this
      ensures Now() == Step(old(Now()), Event.NotifyUnauthorized)
      ensures announced == Announces(old(Now()), Event.NotifyUnauthorized)
    {
      if unauthorizedNotifiedFor == Some(accessGeneration) { return false; }
      unauthorizedNotifiedFor := Some(accessGeneration);
      return true;
    }

    method ReleaseUnauthorizedDedupe()
      modifies this
      ensures Now() == Step(old(Now()), ReleaseDedupe)
    {
      unauthorizedNotifiedFor := None;
    }

    method NotifyRevalidate(now: int)
      modifies this
      ensures Now() == Step(old(Now()), Event.NotifyRevalidate(now))
    {
      if now - revalidateNotifiedAt < DEBOUNCE_MS { return; }
      revalidateNotifiedAt := now;
    }

    /** What the rest of the page does to the runtime while a call waits. */
    method Await(events: seq<Event>)
      modifies this
      ensures Now() == Run(old(Now()), events)
    {
      for i := 0 to |events|
        invariant Now() == Run(old(Now()), events[..i])
      {
        assert events[..i + 1][..i] == events[..i];
        match events[i]
        case SetTrustedLocal(b) => SetTrustedLocal(b);
        case SetIngress(b) => SetHomeAssistantIngress(b);
        case SetSession(x, b, n) => SetSession(x, b, n);
        case Clear => Clear();
        case AdvanceAccess => AdvanceAccessGeneration();
        case NotifyUnauthorized => var _ := NotifyUnauthorized();
        case ReleaseDedupe => ReleaseUnauthorizedDedupe();
        case NotifyRevalidate(now) => NotifyRevalidate(now);
      }
      assert events[..|events|] == events;
    }
  }

  datatype Intent = Protected | PublicStatus | Bootstrap | Logout

  datatype Verb = Get | Head | Post | Put | Patch | Delete | OtherVerb

  predicate Unsafe(v: Verb) { v.Post? || v.Put? || v.Patch? || v.Delete? }

  predicate Guarded(intent: Intent) { intent.Protected? || intent.Logout? }

  /** The CSRF header a request carries, or why it is not sent. */
  datatype Started = Sent(csrf: Option<string>) | CsrfMissing | Malformed

  class SessionTransport {
    const valid: string -> bool
    var csrfToken: Option<string>
    var revision: nat
    var sessionActive: bool

    function Now(): Transport reads this { Transport(csrfToken, revision, sessionActive) }

    constructor (valid: string -> bool)
      ensures this.valid == valid && Now() == Transport(None, 0, false)
    {
      this.valid := valid;
      csrfToken, revision, sessionActive := None, 0, false;
    }

    method InstallCredentials(token: string) returns (current: nat, changed: bool)
      modifies this
      ensures Now() == TransportStep(valid, old(Now()), Install(token))
      ensures current == revision && changed == (Now() != old(Now()))
    {
      if !valid(token) { return revision, false; }
      if sessionActive && csrfToken == Some(token) { return revision, false; }
      csrfToken, sessionActive := Some(token), true;
      revision := revision + 1;
      return revision, true;
    }

    method ClearCredentials() returns (current: nat, changed: bool)
      modifies this
      ensures Now() == TransportStep(valid, old(Now()), TransportEvent.ClearCredentials)
      ensures current == revision && changed == (Now() != old(Now()))
    {
      if !sessionActive && csrfToken.None? { return revision, false; }
      csrfToken, sessionActive := None, false;
      revision := revision + 1;
      return revision, true;
    }

    /**
     Starts a request; `builds` says whether the request can be built. A guarded,
     unsafe request of a session goes out with the current token or not at all, and
     no other request carries it.
     */
    method StartCredentialedFetch(auth: AuthRuntime, intent: Intent, verb: Verb, builds: bool) returns (s: Started)
      requires TransportOk(valid, Now())
      ensures
        var needs := Unsafe(verb) && Guarded(intent) && auth.authMethod == Some(SessionAuth);
        && (s.Sent? <==> builds && (needs ==> csrfToken.Some?))
        && (s.Sent? ==> s.csrf == if needs then csrfToken else None)
        && (s.CsrfMissing? <==> needs && csrfToken.None?)
        && (s.Sent? && s.csrf.Some? ==> valid(s.csrf.value))
    {
      var header: Option<string> := None;
      if Unsafe(verb) && Guarded(intent) {
        if auth.authMethod == Some(SessionAuth) {
          if csrfToken.None? { return CsrfMissing; }
          if !valid(csrfToken.value) { return Malformed; }
          header := csrfToken;
        }
      }
      if !builds { return Malformed; }
      return Sent(header);
    }
  }
}
