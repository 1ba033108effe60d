/**
 * The POST loop of the HTTP client transport, with its three one-shot flags. The
 * server is any function from the number of an attempt to what happens on it, so
 * a statement about every server covers servers that react to what they have seen.
 */
module HttpRetry {
  import opened Common

  /** A decoded JSON-RPC response: its error, and why it is refused as an initialize payload or cannot be recorded. */
  datatype Response = Response(error: Option<Error>, refusal: Option<Error>, unrecordable: Option<Error>)

  datatype Reply =
    | Silence(timedOut: bool)
    | Reply(status: int, nonceHeaders: bool, refreshed: bool, challenge: Option<string>, session: Option<string>,
            decoded: Result<Response, Error>, reconnected: bool, stream: Option<Error>)

  /** One attempt: the failure to sign it, if any, or else the reply to its POST. */
  datatype Exchange = Exchange(signing: Option<Error>, reply: Reply)

  type Server = nat -> Exchange

  datatype Options = Options(stateless: bool, error: Option<Error>)

  datatype Request = Request(initialize: bool, unserializable: Option<Error>)

  /** Why a send fails: for a reason of the loop's own, or with an error it was given. */
  datatype Failure =
    | Unanswered(timedOut: bool)
    | SessionTerminated
    | Unauthorized(status: int, challenge: Option<string>)
    | EmptySession
    | Raised(error: Error)

  const PERMISSION_DENIED := -32005
  const TERMINATED_MESSAGE := "http transport session was terminated"

  /** The `core::Error` for a failure. */
  function Describe(f: Failure): Error {
    match f
    case Unanswered(timedOut) =>
      Error(INTERNAL_ERROR, if timedOut then "http transport request timed out" else "http transport request failed", "")
    case SessionTerminated => Error(INVALID_REQUEST, TERMINATED_MESSAGE, "404")
    case Unauthorized(status, challenge) =>
      Error(PERMISSION_DENIED,
            if status == 403 then "http transport request has insufficient scope"
            else "http transport request requires authorization",
            if challenge.Some? then challenge.value else if status == 403 then "403" else "401")
    case EmptySession => Error(INVALID_REQUEST, "http transport response has an empty Mcp-Session-Id header", "")
    case Raised(error) => error
  }

  predicate IsNonceChallenge(r: Reply) { r.Reply? && r.status == 401 && r.nonceHeaders }
  predicate IsAuthFailure(r: Reply) { r.Reply? && (r.status == 401 || r.status == 403) }

  // ------------------------------------------------- what a send amounts to

  /** The one-shot flags of the transport's loop. */
  datatype Flags = Flags(nonce: bool, reset: bool, auth: bool)
  const UNUSED := Flags(false, false, false)

  /** The flag an answered attempt may still use up: the reason for which it is made again. */
  function Retry(request: Request, r: Reply, flags: Flags): Option<Flags> {
    if IsNonceChallenge(r) && !flags.nonce then Some(flags.(nonce := true))
    else if r.Reply? && r.status == 404 then
      if request.initialize && !flags.reset then Some(flags.(reset := true)) else None
    else if IsAuthFailure(r) && !flags.auth && r.refreshed then Some(flags.(auth := true))
    else None
  }

  /** The session id after an attempt that was answered with `r`. */
  function SessionAfter(options: Options, r: Reply, flags: Flags, session: string): string {
    if r.Silence? || (IsNonceChallenge(r) && !flags.nonce) then session
    else if r.status == 404 then ""
    else if IsAuthFailure(r) || options.stateless then session
    else if r.session.Some? && r.session.value != "" then r.session.value
    else session
  }

  /** The result of a send whose last attempt was answered with `r`. */
  function Verdict(options: Options, r: Reply): Result<Response, Failure> {
    if r.Silence? then Err(Unanswered(r.timedOut))
    else if r.status == 404 then Err(SessionTerminated)
    else if IsAuthFailure(r) then Err(Unauthorized(r.status, r.challenge))
    else if !options.stateless && r.session == Some("") then Err(EmptySession)
    else if r.decoded.Err? then Err(Raised(r.decoded.error))
    else if !options.stateless && r.decoded.value.error.None? && !r.reconnected && r.stream.Some? then Err(Raised(r.stream.value))
    else Ok(r.decoded.value)
  }

  function Left(request: Request, flags: Flags): nat {
    (if flags.nonce then 0 else 1) + (if request.initialize && !flags.reset then 1 else 0) + (if flags.auth then 0 else 1)
  }

  /** What a send finds and leaves: the number of the next attempt, and the session id. */
  datatype State = State(attempt: nat, session: string)

  /** How a send ends: its result, the POSTs it made, the state it leaves. */
  datatype Sent = Sent(result: Result<Response, Failure>, posts: nat, state: State)

  /** What one pass of the loop does: the flags to go round again with, or else the result. */
  datatype Step = Step(again: Option<Flags>, result: Result<Response, Failure>, posts: nat, session: string)

  function StepOf(x: Exchange, options: Options, request: Request, session: string, flags: Flags): Step {
    if x.signing.Some? then Step(None, Err(Raised(x.signing.value)), 0, session)
    else Step(Retry(request, x.reply, flags), Verdict(options, x.reply), 1, SessionAfter(options, x.reply, flags, session))
  }

  function Attempts(server: Server, options: Options, request: Request, state: State, flags: Flags): Sent
    decreases Left(request, flags)
  {
    var step := StepOf(server(state.attempt), options, request, state.session, flags);
    var state' := State(state.attempt + 1, step.session);
    if step.again.None? then Sent(step.result, step.posts, state')
    else
      Plus(step.posts, Attempts(server, options, request, state', step.again.value))
  }

  function Plus(posted: nat, rest: Sent): Sent { rest.(posts := posted + rest.posts) }

  function SendOf(server: Server, options: Options, request: Request, state: State): Sent {
    if options.error.Some? then Sent(Err(Raised(options.error.value)), 0, state)
    else if request.unserializable.Some? then Sent(Err(Raised(request.unserializable.value)), 0, state)
    else Attempts(server, options, request, state, UNUSED)
  }

  // --------------------------------------------------------- the transport

  class HttpTransport {
    const server: Server
    const options: Options
    var attempt: nat
    var session: string
    var posts: nat

    constructor (server: Server, options: Options)
      ensures this.server == server && this.options == options
      ensures attempt == 0 && session == "" && posts == 0
    {
      this.server, this.options := server, options;
      attempt, session, posts := 0, "", 0;
    }

    function Now(): State reads this { State(attempt, session) }

    /** `remember_session`. */
    method RememberSession(header: Option<string>) returns (refused: Option<Failure>)
      modifies this`session
      ensures refused.Some? <==> !options.stateless && header == Some("")
      ensures refused.Some? ==> refused.value == EmptySession
      ensures session == if !options.stateless && header.Some? && header.value != "" then header.value else old(session)
    {
      if options.stateless || header.None? {
        return None;
      }
      if header.value == "" {
        return Some(EmptySession);
      }
      session := header.value;
      return None;
    }

    /** The part of a pass that follows the three retries. */
    method Conclude(r: Reply) returns (result: Result<Response, Failure>)
      requires r.Reply? && r.status != 404 && !IsAuthFailure(r)
      modifies this`session
      ensures result == Verdict(options, r)
      ensures session == SessionAfter(options, r, UNUSED, old(session))
    {
      var refused := RememberSession(r.session);
      if refused.Some? {
        return Err(refused.value);
      }
      if r.decoded.Err? {
        return Err(Raised(r.decoded.error));
      }
      if !options.stateless && r.decoded.value.error.None? && !r.reconnected && r.stream.Some? {
        return Err(Raised(r.stream.value));
      }
      return Ok(r.decoded.value);
    }

    /** One pass of the loop. */
    method Pass(request: Request, flags: Flags) returns (again: Option<Flags>, result: Result<Response, Failure>)
      modifies this
      ensures var step := StepOf(server(old(attempt)), options, request, old(session), flags);
        && again == step.again && (again.None? ==> result == step.result)
        && attempt == old(attempt) + 1 && session == step.session && posts == old(posts) + step.posts
    {
      again, result := None, Err(SessionTerminated);
      var x := server(attempt);
      attempt := attempt + 1;
      if x.signing.Some? {
        return None, Err(Raised(x.signing.value));
      }
      posts := posts + 1;
      var r := x.reply;
      if r.Silence? {
        return None, Err(Unanswered(r.timedOut));
      }
      if IsNonceChallenge(r) && !flags.nonce {
        again := Some(flags.(nonce := true));
        return;
      }
      if r.status == 404 {
        session := "";
        if request.initialize && !flags.reset {
          again := Some(flags.(reset := true));
        }
        return;
      }
      if IsAuthFailure(r) && !flags.auth {
        if r.refreshed {
          again := Some(flags.(auth := true));
          return;
        }
      }
      if IsAuthFailure(r) {
        return None, Err(Unauthorized(r.status, r.challenge));
      }
      result := Conclude(r);
    }

    /** `HttpTransport::send`. */
    method Send(request: Request) returns (result: Result<Response, Failure>)
      modifies this
      ensures var sent := SendOf(server, options, request, old(Now()));
        result == sent.result && Now() == sent.state && posts == old(posts) + sent.posts
    {
      if options.error.Some? {
        return Err(Raised(options.error.value));
      }
      if request.unserializable.Some? {
        return Err(Raised(request.unserializable.value));
      }
      result := PostUntilDone(request);
    }

    method PostUntilDone(request: Request) returns (result: Result<Response, Failure>)
      modifies this
      ensures var sent := Attempts(server, options, request, old(Now()), UNUSED);
        result == sent.result && Now() == sent.state && posts == old(posts) + sent.posts
    {
      var flags := UNUSED;
      ghost var whole := Attempts(server, options, request, Now(), flags);
      while true
        invariant posts >= old(posts)
        invariant whole == Plus(posts - old(posts), Attempts(server, options, request, Now(), flags))
        decreases Left(request, flags)
      {
        var again, verdict := Pass(request, flags);
        if again.None? {
          return verdict;
        }
        flags := again.value;
      }
    }
  }

  // -------------------------------------------------------------- theorems

  /** However the server behaves, one send makes at most three POSTs, or four to initialize. */
  lemma {:induction false} AttemptsBounded(server: Server, options: Options, request: Request, state: State, flags: Flags)
    ensures Attempts(server, options, request, state, flags).posts <= 1 + Left(request, flags)
    decreases Left(request, flags)
  {
    var step := StepOf(server(state.attempt), options, request, state.session, flags);
    if step.again.Some? {
      AttemptsBounded(server, options, request, State(state.attempt + 1, step.session), step.again.value);
    }
  }

  lemma SendBounded(server: Server, options: Options, request: Request, state: State)
    ensures SendOf(server, options, request, state).posts <= if request.initialize then 4 else 3
  {
    AttemptsBounded(server, options, request, state, UNUSED);
  }

  /** The last attempt decides: its reply gives the result, every attempt but an
      unsigned one was posted, and a 404 ends the session. */
  lemma {:induction false} LastReplyDecides(server: Server, options: Options, request: Request, state: State, flags: Flags)
    ensures var sent := Attempts(server, options, request, state, flags);
      && sent.state.attempt > state.attempt
      && var last := server(sent.state.attempt - 1);
         var made := sent.state.attempt - state.attempt;
         if last.signing.Some? then sent.result == Err(Raised(last.signing.value)) && sent.posts == made - 1
         else
           && sent.result == Verdict(options, last.reply) && sent.posts == made
           && (last.reply.Reply? && last.reply.status == 404 ==> sent.state.session == "")
    decreases Left(request, flags)
  {
    var step := StepOf(server(state.attempt), options, request, state.session, flags);
    if step.again.Some? {
      LastReplyDecides(server, options, request, State(state.attempt + 1, step.session), step.again.value);
    }
  }

  // The answers that use up the flags one after the other, and two that end a send.
  const GOOD := Response(None, None, None)
  const NONCE := Answer(401, true, false)
  const RENEWED := Answer(401, false, true)
  const GONE := Answer(404, false, false)
  const FINE := Answer(200, false, false)

  function Answer(status: int, nonceHeaders: bool, refreshed: bool): Exchange {
    Exchange(None, Reply(status, nonceHeaders, refreshed, None, None, Ok(GOOD), false, None))
  }

  const PLAIN := Options(true, None)

  /** The bound is met: three POSTs for any request that is not initialize. */
  lemma ThreePosts(server: Server, request: Request, state: State)
    requires !request.initialize && request.unserializable.None?
    requires server(state.attempt) == NONCE && server(state.attempt + 1) == RENEWED && server(state.attempt + 2) == GONE
    ensures SendOf(server, PLAIN, request, state) == Sent(Err(SessionTerminated), 3, State(state.attempt + 3, ""))
  {
    var s1, s2 := State(state.attempt + 1, state.session), State(state.attempt + 2, state.session);
    var f1, f2 := Flags(true, false, false), Flags(true, false, true);
    assert Attempts(server, PLAIN, request, s2, f2) == Sent(Err(SessionTerminated), 1, State(state.attempt + 3, ""));
    assert Attempts(server, PLAIN, request, s1, f1) == Plus(1, Attempts(server, PLAIN, request, s2, f2));
    assert Attempts(server, PLAIN, request, state, UNUSED) == Plus(1, Attempts(server, PLAIN, request, s1, f1));
  }

  /** And four for initialize, whose last reply decides the result. */
  lemma FourPosts(server: Server, request: Request, state: State)
    requires request.initialize && request.unserializable.None?
    requires server(state.attempt) == NONCE && server(state.attempt + 1) == RENEWED && server(state.attempt + 2) == GONE
    requires server(state.attempt + 3) == GONE || server(state.attempt + 3) == FINE
    ensures SendOf(server, PLAIN, request, state)
         == Sent(if server(state.attempt + 3) == FINE then Ok(GOOD) else Err(SessionTerminated), 4, State(state.attempt + 4, ""))
  {
    var s1, s2 := State(state.attempt + 1, state.session), State(state.attempt + 2, state.session);
    var s3 := State(state.attempt + 3, "");
    var f1, f2, f3 := Flags(true, false, false), Flags(true, false, true), Flags(true, true, true);
    assert Attempts(server, PLAIN, request, s3, f3).posts == 1;
    assert Attempts(server, PLAIN, request, s2, f2) == Plus(1, Attempts(server, PLAIN, request, s3, f3));
    assert Attempts(server, PLAIN, request, s1, f1) == Plus(1, Attempts(server, PLAIN, request, s2, f2));
    assert Attempts(server, PLAIN, request, state, UNUSED) == Plus(1, Attempts(server, PLAIN, request, s1, f1));
  }
}
