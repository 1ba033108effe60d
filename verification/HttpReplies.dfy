/**
 * What one send of the HTTP client transport makes of the replies it gets, told by
 * status codes and headers: why each attempt is made again, what the last reply
 * gives, and which session id is left.
 */
module HttpReplies {
  import opened Common
  import opened HttpRetry

  /** A fresh nonce, a session to start over, or renewed authorization. */
  datatype Reason = Nonce | Reset | Auth

  predicate Asks(request: Request, r: Reply, why: Reason) {
    && r.Reply?
    && match why
       case Nonce => r.status == 401 && r.nonceHeaders
       case Reset => r.status == 404 && request.initialize
       case Auth => (r.status == 401 || r.status == 403) && r.refreshed
  }

  /** Attempt `i` is made again for a reason its reply asks for, not used before in
      this send; a nonce comes first. */
  ghost predicate AgainAt(server: Server, request: Request, start: nat, why: seq<Reason>, i: nat)
    requires i < |why|
  {
    var x := server(start + i);
    && x.signing.None? && Asks(request, x.reply, why[i]) && why[i] !in why[..i]
    && (Asks(request, x.reply, Nonce) && Nonce !in why[..i] ==> why[i] == Nonce)
  }

  /** The session id after a reply: a 404 drops it, a reply that is not about
      authorization may bring a new one, and a stateless transport takes none. */
  predicate Leaves(options: Options, r: Reply, before: string, after: string) {
    if r.Reply? && r.status == 404 then after == ""
    else if r.Reply? && r.status != 401 && r.status != 403 && !options.stateless && r.session.Some? && r.session.value != ""
    then after == r.session.value
    else after == before
  }

  ghost predicate SessionAt(server: Server, options: Options, start: nat, sessions: seq<string>, i: nat)
    requires i + 1 < |sessions|
  {
    Leaves(options, server(start + i).reply, sessions[i], sessions[i + 1])
  }

  /** The result a last reply gives. */
  predicate Gives(options: Options, r: Reply, result: Result<Response, Failure>) {
    match r
    case Silence(timedOut) => result == Err(Unanswered(timedOut))
    case Reply(status, _, _, challenge, session, decoded, reconnected, stream) =>
      if status == 404 then result == Err(SessionTerminated)
      else if status == 401 || status == 403 then result == Err(Unauthorized(status, challenge))
      else
        var named := options.stateless || session != Some("");
        var streamed := options.stateless || (decoded.Ok? && decoded.value.error.Some?) || reconnected || stream.None?;
        && (result.Ok? <==> named && decoded.Ok? && streamed)
        && (result.Ok? ==> result.value == decoded.value)
        && (!named ==> result == Err(EmptySession))
        && (named && decoded.Err? ==> result == Err(Raised(decoded.error)))
        && (named && decoded.Ok? && !streamed ==> result == Err(Raised(stream.value)))
  }

  /** Every attempt but the last is made again for a reason of its own, and the last
      one for want of a reason not used. */
  ghost predicate Explained(server: Server, options: Options, request: Request, state: State, sent: Sent,
                            why: seq<Reason>, sessions: seq<string>)
  {
    var last := server(state.attempt + |why|);
    && sent.state.attempt == state.attempt + |why| + 1
    && (forall i :: 0 <= i < |why| ==> AgainAt(server, request, state.attempt, why, i))
    && |sessions| == 1 + sent.posts && sessions[0] == state.session && sessions[sent.posts] == sent.state.session
    && (forall i :: 0 <= i < sent.posts ==> SessionAt(server, options, state.attempt, sessions, i))
    && if last.signing.Some? then sent.posts == |why| && sent.result == Err(Raised(last.signing.value))
       else
         && sent.posts == |why| + 1 && Gives(options, last.reply, sent.result)
         && forall w :: Asks(request, last.reply, w) ==> w in why
  }

  // ------------------------------------------------------------------ proof

  predicate Has(flags: Flags, w: Reason) {
    match w
    case Nonce => flags.nonce
    case Reset => flags.reset
    case Auth => flags.auth
  }

  ghost predicate Agree(flags: Flags, why: seq<Reason>) { forall w :: Has(flags, w) <==> w in why }

  /** What is known of a send that has gone round `|why|` times. */
  ghost predicate SoFar(server: Server, options: Options, request: Request, start: nat, state: State, flags: Flags,
                        why: seq<Reason>, sessions: seq<string>)
  {
    && state.attempt == start + |why| && Agree(flags, why)
    && |sessions| == |why| + 1 && sessions[|why|] == state.session
    && (forall i :: 0 <= i < |why| ==> AgainAt(server, request, start, why, i))
    && (forall i :: 0 <= i < |why| ==> SessionAt(server, options, start, sessions, i))
  }

  /** The reason for which a reply makes the loop go round. */
  function Picked(request: Request, r: Reply, flags: Flags): Reason {
    if Asks(request, r, Nonce) && !flags.nonce then Nonce
    else if r.Reply? && r.status == 404 then Reset
    else Auth
  }

  lemma PickedIsAsked(request: Request, r: Reply, flags: Flags)
    ensures Retry(request, r, flags).Some? <==> exists w :: Asks(request, r, w) && !Has(flags, w)
    ensures Retry(request, r, flags).Some? ==>
              var picked := Picked(request, r, flags);
              && Asks(request, r, picked) && !Has(flags, picked)
              && forall w :: Has(Retry(request, r, flags).value, w) <==> Has(flags, w) || w == picked
  {
    assert Asks(request, r, Nonce) == (r.Reply? && r.status == 401 && r.nonceHeaders);
    assert Asks(request, r, Reset) == (r.Reply? && r.status == 404 && request.initialize);
    assert Asks(request, r, Auth) == (r.Reply? && (r.status == 401 || r.status == 403) && r.refreshed);
  }

  lemma AgainStays(server: Server, request: Request, start: nat, why: seq<Reason>, w: Reason, i: nat)
    requires i < |why| && AgainAt(server, request, start, why, i)
    ensures AgainAt(server, request, start, why + [w], i)
  {
    assert (why + [w])[..i] == why[..i];
  }

  lemma SessionStays(server: Server, options: Options, start: nat, sessions: seq<string>, session: string, i: nat)
    requires i + 1 < |sessions| && SessionAt(server, options, start, sessions, i)
    ensures SessionAt(server, options, start, sessions + [session], i)
  {
  }

  /** One more time round. */
  lemma GoesRound(server: Server, options: Options, request: Request, start: nat, state: State, flags: Flags,
                  why: seq<Reason>, sessions: seq<string>)
    requires SoFar(server, options, request, start, state, flags, why, sessions)
    requires StepOf(server(state.attempt), options, request, state.session, flags).again.Some?
    ensures var x := server(state.attempt);
      var step := StepOf(x, options, request, state.session, flags);
      SoFar(server, options, request, start, State(state.attempt + 1, step.session), step.again.value,
            why + [Picked(request, x.reply, flags)], sessions + [step.session])
  {
    var r := server(state.attempt).reply;
    var step := StepOf(server(state.attempt), options, request, state.session, flags);
    var w := Picked(request, r, flags);
    PickedIsAsked(request, r, flags);
    forall i | 0 <= i < |why| ensures AgainAt(server, request, start, why + [w], i) {
      AgainStays(server, request, start, why, w, i);
    }
    forall i | 0 <= i < |why| ensures SessionAt(server, options, start, sessions + [step.session], i) {
      SessionStays(server, options, start, sessions, step.session, i);
    }
  }

  lemma {:induction false} AttemptsExplained(
      server: Server, options: Options, request: Request, begin: State, state: State, flags: Flags,
      why: seq<Reason>, sessions: seq<string>)
    returns (all: seq<Reason>, ids: seq<string>)
    requires SoFar(server, options, request, begin.attempt, state, flags, why, sessions) && sessions[0] == begin.session
    ensures var rest := Attempts(server, options, request, state, flags);
      Explained(server, options, request, begin, Plus(|why|, rest), all, ids)
    decreases Left(request, flags)
  {
    var x := server(state.attempt);
    var step := StepOf(x, options, request, state.session, flags);
    var next := State(state.attempt + 1, step.session);
    if step.again.Some? {
      GoesRound(server, options, request, begin.attempt, state, flags, why, sessions);
      all, ids := AttemptsExplained(server, options, request, begin, next, step.again.value,
                                    why + [Picked(request, x.reply, flags)], sessions + [step.session]);
    } else {
      all := why;
      ids := if x.signing.Some? then sessions else sessions + [step.session];
      EndsExplained(server, options, request, begin, state, flags, why, sessions, ids);
    }
  }

  lemma EndsExplained(server: Server, options: Options, request: Request, begin: State, state: State, flags: Flags,
                      why: seq<Reason>, sessions: seq<string>, ids: seq<string>)
    requires SoFar(server, options, request, begin.attempt, state, flags, why, sessions) && sessions[0] == begin.session
    requires var x := server(state.attempt);
      var step := StepOf(x, options, request, state.session, flags);
      step.again.None? && ids == if x.signing.Some? then sessions else sessions + [step.session]
    ensures Explained(server, options, request, begin, Plus(|why|, Attempts(server, options, request, state, flags)), why, ids)
  {
    var x := server(state.attempt);
    if x.signing.None? {
      PickedIsAsked(request, x.reply, flags);
      forall i | 0 <= i < |why| ensures SessionAt(server, options, begin.attempt, ids, i) {
        SessionStays(server, options, begin.attempt, sessions, ids[|why| + 1], i);
      }
    }
  }

  /** Every send that gets as far as its first attempt is explained by its replies. */
  lemma SendExplained(server: Server, options: Options, request: Request, state: State)
    returns (why: seq<Reason>, sessions: seq<string>)
    requires options.error.None? && request.unserializable.None?
    ensures Explained(server, options, request, state, SendOf(server, options, request, state), why, sessions)
  {
    why, sessions := AttemptsExplained(server, options, request, state, state, UNUSED, [], [state.session]);
  }

  /** And one that does not get there makes no attempt and says why. */
  lemma UnsentSayWhy(server: Server, options: Options, request: Request, state: State)
    requires options.error.Some? || request.unserializable.Some?
    ensures SendOf(server, options, request, state)
         == Sent(Err(Raised(if options.error.Some? then options.error.value else request.unserializable.value)), 0, state)
  {
  }

  lemma FirstReasonIsAsked(server: Server, request: Request, start: nat, why: seq<Reason>)
    requires why != [] && forall i :: 0 <= i < |why| ==> AgainAt(server, request, start, why, i)
    ensures Asks(request, server(start).reply, why[0])
  {
    assert AgainAt(server, request, start, why, 0);
  }

  /** A send whose first reply is a refusal that cannot be cured ends there, with the refusal. */
  lemma RefusalIsFinal(server: Server, options: Options, request: Request, state: State, r: Reply)
    requires options.error.None? && request.unserializable.None?
    requires server(state.attempt) == Exchange(None, r) && r.Reply? && !r.refreshed
    requires r.status == 403 || (r.status == 401 && !r.nonceHeaders)
    ensures SendOf(server, options, request, state)
         == Sent(Err(Unauthorized(r.status, r.challenge)), 1, State(state.attempt + 1, state.session))
  {
    var why, sessions := SendExplained(server, options, request, state);
    if why != [] { FirstReasonIsAsked(server, request, state.attempt, why); }
    assert SessionAt(server, options, state.attempt, sessions, 0);
  }

  /** The codes and texts a failed send ends with. */
  lemma FailuresInNumbers(status: int, challenge: string)
    ensures Describe(Unanswered(true)).code == -32603 && Describe(Unanswered(true)).message == "http transport request timed out"
    ensures Describe(Unanswered(false)).code == -32603 && Describe(Unanswered(false)).message == "http transport request failed"
    ensures Describe(SessionTerminated) == Error(-32600, "http transport session was terminated", "404")
    ensures Describe(EmptySession) == Error(-32600, "http transport response has an empty Mcp-Session-Id header", "")
    ensures Describe(Unauthorized(401, None)) == Error(-32005, "http transport request requires authorization", "401")
    ensures Describe(Unauthorized(403, None)) == Error(-32005, "http transport request has insufficient scope", "403")
    ensures Describe(Unauthorized(status, Some(challenge))).detail == challenge
  {
  }
}
