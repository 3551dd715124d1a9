/**
 Core requests under the auth runtime. A call waits several times; whatever the
 page does meanwhile is given as events. A guarded call checks its access
 generation after every wait, so it returns a value only if nothing changed.
 */
module ProtectedFetch {
  import opened Basics
  import opened AuthState
  import opened AuthRuntimeClass

  datatype Kind =
    | Authentication | Csrf | OriginRejected | SessionUnavailable | Unreachable | StaleAuthContext | ProtocolError
    | Generic

  datatype ApiError = ApiError(status: int, kind: Kind)

  datatype Detail = CsrfDetail | OriginDetail | OtherDetail

  function ClassifyError(status: int, detail: Detail): Kind {
    if status == 0 then Unreachable
    else if status == 401 then Authentication
    else if status == 409 then SessionUnavailable
    else if status == 403 && detail == CsrfDetail then Csrf
    else if status == 403 && detail == OriginDetail then OriginRejected
    else Generic
  }

  /** The body of an accepted reply: a value, text that does not parse, or a stream that breaks. */
  datatype Body<T> = Parsed(value: T) | Unparsable

  /** What Core answers; an error reply carries a detail, and reading either takes a wait. */
  datatype Reply<T> =
    | NoReply
    | Refusal(status: int, detail: Detail, reading: seq<Event>)
    | Accepted(status: int, body: Body<T>, reading: seq<Event>)

  /** One attempt as the outside world plays it; `now` is the time in milliseconds. */
  datatype Exchange<T> =
    Exchange(builds: bool, waiting: seq<Event>, reply: Reply<T>, now: int, sleeping: seq<Event>)

  const STALE := ApiError(0, StaleAuthContext)

  const MAX_FETCH_RETRIES := 3

  predicate RetryableStatus(status: int) {
    status == 0 || status == 408 || status == 429 || status == 500 || status == 502 || status == 503 || status == 504
  }

  predicate RetryableError(e: ApiError) {
    RetryableStatus(e.status) && e.kind != Authentication && e.kind != StaleAuthContext
  }

  predicate Idempotent(v: Verb) { v.Get? || v.Head? }

  /** The attempt failed in a way that is tried again. */
  predicate Transient<T>(x: Exchange<T>) {
    !x.builds || x.reply.NoReply? || (x.reply.Refusal? && RetryableStatus(x.reply.status)) ||
    (x.reply.Accepted? && x.reply.body.Unparsable? && RetryableStatus(x.reply.status))
  }

  /** What an attempt comes to when nothing changes meanwhile and no token is missing. */
  function Outcome<T>(x: Exchange<T>): Result<T, ApiError> {
    if !x.builds then Err(ApiError(0, ProtocolError))
    else
      match x.reply
      case NoReply => Err(ApiError(0, Unreachable))
      case Refusal(status, detail, _) => Err(ApiError(status, ClassifyError(status, detail)))
      case Accepted(_, Parsed(value), _) => Ok(value)
      case Accepted(status, Unparsable, _) => Err(ApiError(status, Generic))
  }

  /** A failure is transient exactly if its error is one that is tried again. */
  lemma TransientMeaning<T>(x: Exchange<T>)
    ensures Transient(x) <==> Outcome(x).Err? && RetryableError(Outcome(x).error)
    ensures Outcome(x).Err? ==> Outcome(x) != Err(STALE)
  {
  }

  /** What the runtime is told about a refusal: a lost session, or a token to be refreshed. */
  function Notices<T>(intent: Intent, x: Exchange<T>): seq<Event> {
    if !intent.Protected? || !x.reply.Refusal? then []
    else if x.reply.status == 401 then [Event.NotifyUnauthorized]
    else if ClassifyError(x.reply.status, x.reply.detail) == Csrf then [Event.NotifyRevalidate(x.now)]
    else []
  }

  /** What happens to the runtime during an attempt that is sent and that nothing makes stale. */
  function Heard<T>(intent: Intent, x: Exchange<T>): seq<Event> {
    match x.reply
    case NoReply => x.waiting
    case Refusal(_, _, reading) => x.waiting + reading + Notices(intent, x)
    case Accepted(_, _, reading) => x.waiting + reading
  }

  /** What the rest of the page does while an attempt waits. */
  function Outside<T>(x: Exchange<T>): seq<Event> {
    x.waiting + (if x.reply.NoReply? then [] else x.reply.reading) + x.sleeping
  }

  ghost predicate FromOutside<T(!new)>(x: Exchange<T>, happened: seq<Event>) {
    forall e :: e in happened ==> e.NotifyUnauthorized? || e.NotifyRevalidate? || e in Outside(x)
  }

  lemma StepGrows(r: Runtime, e: Event)
    ensures Step(r, e).accessGeneration >= r.accessGeneration
  {
  }

  /** The access generation never goes back. */
  lemma {:induction false} AccessGrows(r: Runtime, events: seq<Event>)
    ensures Run(r, events).accessGeneration >= r.accessGeneration
  {
    if events != [] { AccessGrows(r, events[..|events| - 1]); }
  }

  /** A request for which a session's token is needed and not there is not sent. */
  predicate TokenMissing(auth: AuthRuntime, transport: SessionTransport, intent: Intent, verb: Verb)
    reads auth, transport
  {
    Unsafe(verb) && Guarded(intent) && auth.authMethod == Some(SessionAuth) && transport.csrfToken.None?
  }

  const NO_TOKEN := ApiError(403, Csrf)

  ghost predicate Steps(before: Runtime, happened: seq<Event>, after: Runtime) { after == Run(before, happened) }

  lemma StepsAppend(before: Runtime, a: seq<Event>, mid: Runtime, b: seq<Event>, after: Runtime)
    requires Steps(before, a, mid) && Steps(mid, b, after)
    ensures Steps(before, a + b, after)
  {
    RunSplit(before, a, b);
  }

  lemma StepsNone(r: Runtime)
    ensures Steps(r, [], r)
  {
  }

  lemma StepsOne(r: Runtime, e: Event)
    ensures Steps(r, [e], Step(r, e))
  {
    assert [e][..0] == [];
  }

  /**
   One request. `sent` says whether it left the browser; `happened` is everything
   the runtime went through meanwhile.
   */
  method CoreFetch<T(!new)>(
    auth: AuthRuntime, transport: SessionTransport, intent: Intent, verb: Verb, start: nat, x: Exchange<T>)
    returns (r: Result<Reply<T>, ApiError>, sent: bool, ghost happened: seq<Event>)
    requires TransportOk(transport.valid, transport.Now())
    modifies auth
    ensures Steps(old(auth.Now()), happened, auth.Now())
    ensures r.Ok? ==> sent && r.value == x.reply && x.reply.Accepted? && x.builds
    ensures r.Ok? && Guarded(intent) ==> auth.accessGeneration == start
    ensures r.Err? && RetryableError(r.error) && Idempotent(verb) ==> Transient(x)
    ensures Guarded(intent) && old(auth.accessGeneration) != start ==> r == Err(STALE) && !sent
    ensures auth.accessGeneration >= old(auth.accessGeneration) && FromOutside(x, happened)
    ensures old(TokenMissing(auth, transport, intent, verb)) && old(auth.accessGeneration) == start ==>
              r == Err(NO_TOKEN) && !sent && happened == [Event.NotifyRevalidate(x.now)]
    ensures !old(TokenMissing(auth, transport, intent, verb)) && (Guarded(intent) ==> old(auth.accessGeneration) == start == auth.accessGeneration) ==>
              && sent == x.builds
              && (r.Err? <==> !(x.builds && x.reply.Accepted?))
              && (r.Err? ==> Outcome(x) == Err(r.error))
              && happened == if !sent then [] else if x.reply.Accepted? then x.waiting else Heard(intent, x)
  {
    hide Run, Step;
    happened, sent := [], false;
    StepsNone(auth.Now());
    if Guarded(intent) && start != auth.accessGeneration { return Err(STALE), false, happened; }
    var started := transport.StartCredentialedFetch(auth, intent, verb, x.builds);
    if started.Malformed? { return Err(ApiError(0, ProtocolError)), false, happened; }
    if started.CsrfMissing? {
      StepsOne(auth.Now(), Event.NotifyRevalidate(x.now));
      StepGrows(auth.Now(), Event.NotifyRevalidate(x.now));
      auth.NotifyRevalidate(x.now);
      return Err(ApiError(403, Csrf)), false, [Event.NotifyRevalidate(x.now)];
    }
    sent := true;
    AccessGrows(auth.Now(), x.waiting);
    auth.Await(x.waiting);
    happened := x.waiting;
    if x.reply.NoReply? { return Err(ApiError(0, Unreachable)), true, happened; }
    if Guarded(intent) && start != auth.accessGeneration { return Err(STALE), true, happened; }
    if x.reply.Refusal? {
      StepsAppend(old(auth.Now()), happened, auth.Now(), x.reply.reading, Run(auth.Now(), x.reply.reading));
      AccessGrows(auth.Now(), x.reply.reading);
      auth.Await(x.reply.reading);
      happened := happened + x.reply.reading;
      if Guarded(intent) && start != auth.accessGeneration { return Err(STALE), true, happened; }
      var kind := ClassifyError(x.reply.status, x.reply.detail);
      if x.reply.status == 401 && intent.Protected? && start == auth.accessGeneration {
        StepsOne(auth.Now(), Event.NotifyUnauthorized);
        StepsAppend(old(auth.Now()), happened, auth.Now(), [Event.NotifyUnauthorized],
                    Step(auth.Now(), Event.NotifyUnauthorized));
        StepGrows(auth.Now(), Event.NotifyUnauthorized);
        var _ := auth.NotifyUnauthorized();
        happened := happened + [Event.NotifyUnauthorized];
      } else if x.reply.status == 403 && kind == Csrf && intent.Protected? && start == auth.accessGeneration {
        StepsOne(auth.Now(), Event.NotifyRevalidate(x.now));
        StepsAppend(old(auth.Now()), happened, auth.Now(), [Event.NotifyRevalidate(x.now)],
                    Step(auth.Now(), Event.NotifyRevalidate(x.now)));
        StepGrows(auth.Now(), Event.NotifyRevalidate(x.now));
        auth.NotifyRevalidate(x.now);
        happened := happened + [Event.NotifyRevalidate(x.now)];
      }
      return Err(ApiError(x.reply.status, kind)), true, happened;
    }
    return Ok(x.reply), true, happened;
  }

  /** One attempt: the request, then its body. */
  method FetchJsonOnce<T(!new)>(
    auth: AuthRuntime, transport: SessionTransport, intent: Intent, verb: Verb, start: nat, x: Exchange<T>)
    returns (r: Result<T, ApiError>, sent: bool, ghost happened: seq<Event>)
    requires TransportOk(transport.valid, transport.Now())
    modifies auth
    ensures Steps(old(auth.Now()), happened, auth.Now())
    ensures r.Ok? ==> sent && x.reply.Accepted? && x.reply.body == Parsed(r.value)
    ensures r.Ok? && Guarded(intent) ==> auth.accessGeneration == start
    ensures r.Err? && RetryableError(r.error) && Idempotent(verb) ==> Transient(x)
    ensures auth.accessGeneration >= old(auth.accessGeneration) && FromOutside(x, happened)
    ensures old(TokenMissing(auth, transport, intent, verb)) && old(auth.accessGeneration) == start ==>
              r == Err(NO_TOKEN) && !sent && happened == [Event.NotifyRevalidate(x.now)]
    ensures !old(TokenMissing(auth, transport, intent, verb)) && (Guarded(intent) ==> old(auth.accessGeneration) == start == auth.accessGeneration) ==>
              r == Outcome(x) && sent == x.builds && happened == if sent then Heard(intent, x) else []
  {
    hide Run, Step;
    var res: Result<Reply<T>, ApiError>;
    res, sent, happened := CoreFetch(auth, transport, intent, verb, start, x);
    if res.Err? { return Err(res.error), sent, happened; }
    StepsAppend(old(auth.Now()), happened, auth.Now(), x.reply.reading, Run(auth.Now(), x.reply.reading));
    AccessGrows(auth.Now(), x.reply.reading);
    auth.Await(x.reply.reading);
    happened := happened + x.reply.reading;
    if x.reply.body.Unparsable? { return Err(ApiError(x.reply.status, Generic)), sent, happened; }
    if Guarded(intent) && start != auth.accessGeneration { return Err(STALE), sent, happened; }
    return Ok(x.reply.body.value), sent, happened;
  }

  /** A call that may be sent again. */
  predicate Retryable(intent: Intent, verb: Verb) { intent.Protected? && Idempotent(verb) }

  /** Whatever happened in so many attempts came from outside, or was a notice about a refusal. */
  ghost predicate FromWorld<T(!new)>(world: nat -> Exchange<T>, attempts: nat, happened: seq<Event>) {
    forall e :: e in happened ==>
      || e.NotifyUnauthorized? || e.NotifyRevalidate?
      || exists k :: 0 <= k < attempts && e in Outside(world(k))
  }

  lemma WorldGrows<T(!new)>(world: nat -> Exchange<T>, attempts: nat, happened: seq<Event>, more: seq<Event>)
    requires FromWorld(world, attempts, happened) && FromOutside(world(attempts), more)
    ensures FromWorld(world, attempts + 1, happened + more)
  {
    hide Outside;
    assert forall e :: e in happened + more ==> e in happened || e in more;
  }

  lemma WorldSleeps<T(!new)>(world: nat -> Exchange<T>, k: nat, happened: seq<Event>)
    requires FromWorld(world, k + 1, happened)
    ensures FromWorld(world, k + 1, happened + world(k).sleeping)
  {
    var sleeping := world(k).sleeping;
    assert forall e :: e in sleeping ==> e in Outside(world(k));
    assert forall e :: e in happened + sleeping ==> e in happened || e in sleeping;
  }

  /**
   A whole call with its retries. If a guarded call returns a value, that value is what the last attempt read,
   every attempt before it failed transiently, and from start to end neither generation nor the identity changed.
   And if the generation stays, a call is tried again exactly after transient failures, up to four times, and ends
   with what its last attempt comes to.
   */
  method FetchJson<T(!new)>(
    auth: AuthRuntime, transport: SessionTransport, intent: Intent, verb: Verb, world: nat -> Exchange<T>)
    returns (r: Result<T, ApiError>, attempts: nat, sends: nat, ghost happened: seq<Event>)
    requires Consistent(auth.Now()) && TransportOk(transport.valid, transport.Now())
    modifies auth
    ensures auth.Now() == Run(old(auth.Now()), happened)
    ensures r.Ok? && Guarded(intent) ==> Quiet(old(auth.Now()), happened)
    ensures r.Ok? ==> attempts > 0 && world(attempts - 1).reply.Accepted? && world(attempts - 1).reply.body == Parsed(r.value)
    ensures forall k :: 0 <= k < attempts - 1 ==> Transient(world(k))
    ensures sends <= attempts <= 4
    ensures !Retryable(intent, verb) ==> attempts <= 1
    ensures FromWorld(world, attempts, happened)
    ensures Retryable(intent, verb) && auth.accessGeneration == old(auth.accessGeneration) ==>
              && attempts > 0 && r == Outcome(world(attempts - 1))
              && (r.Ok? || attempts == 4 || !Transient(world(attempts - 1)))
    ensures Retryable(intent, verb) && auth.accessGeneration == old(auth.accessGeneration) ==>
              forall k :: 0 <= k <= 3 && (forall j :: 0 <= j < k ==> Transient(world(j))) && Outcome(world(k)).Ok? ==>
                r == Outcome(world(k)) && attempts == k + 1
    ensures !Retryable(intent, verb) && (Guarded(intent) ==> auth.accessGeneration == old(auth.accessGeneration)) ==>
              && attempts == 1
              && r == if old(TokenMissing(auth, transport, intent, verb)) then Err(NO_TOKEN) else Outcome(world(0))
  {
    hide Run, Step, RetryableError, Transient, Outcome, Heard;
    var start := auth.accessGeneration;
    var retryable := Retryable(intent, verb);
    attempts, sends, happened := 0, 0, [];
    StepsNone(auth.Now());
    while true
      invariant attempts <= MAX_FETCH_RETRIES && sends <= attempts
      invariant attempts > 0 ==> retryable
      invariant attempts == 0 ==> auth.Now() == old(auth.Now())
      invariant Steps(old(auth.Now()), happened, auth.Now())
      invariant forall k :: 0 <= k < attempts ==> Transient(world(k))
      invariant auth.accessGeneration >= start
      invariant FromWorld(world, attempts, happened)
      decreases MAX_FETCH_RETRIES - attempts
    {
      if (retryable || intent.Logout?) && start != auth.accessGeneration {
        r := Err(STALE);
        break;
      }
      var x := world(attempts);
      label before:
      var sent: bool;
      ghost var more: seq<Event>;
      r, sent, more := FetchJsonOnce(auth, transport, intent, verb, start, x);
      TransientMeaning(x);
      StepsAppend(old(auth.Now()), happened, old@before(auth.Now()), more, auth.Now());
      WorldGrows(world, attempts, happened, more);
      happened := happened + more;
      attempts, sends := attempts + 1, if sent then sends + 1 else sends;
      if r.Ok? || !retryable || !RetryableError(r.error) || attempts > MAX_FETCH_RETRIES { break; }
      StepsAppend(old(auth.Now()), happened, auth.Now(), x.sleeping, Run(auth.Now(), x.sleeping));
      AccessGrows(auth.Now(), x.sleeping);
      auth.Await(x.sleeping);
      WorldSleeps(world, attempts - 1, happened);
      happened := happened + x.sleeping;
      if start != auth.accessGeneration {
        r := Err(STALE);
        break;
      }
    }
    SameAccessMeansQuiet(old(auth.Now()), happened);
    forall k | 0 <= k <= MAX_FETCH_RETRIES && Outcome(world(k)).Ok? ensures !Transient(world(k)) { TransientMeaning(world(k)); }
  }
}
