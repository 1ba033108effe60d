/**
 * `Client::send_rpc_request` over HTTP: it may initialize the session by itself
 * before the request, and after a terminated session it may initialize it again
 * and send the request once more. The client sees its transport as a function
 * from a request and a state to how the send ends; `HttpRetry.SendOf` is the one
 * that `HttpRetry.HttpTransport.Send` computes.
 */
module HttpRecovery {
  import opened Common
  import opened HttpRetry

  type Transport = (Request, State) -> Sent

  /** Whose request a POST carries: the caller's, the automatic initialize or the recovering one. */
  datatype Sender = Itself | Automatic | Recovery

  /** What one call does, in order. */
  datatype Mark = Post(who: Sender) | Terminated | Accepted | Recorded

  /** `is_session_terminated_error`. */
  predicate IsTerminatedError(e: Error) { e.code == INVALID_REQUEST && e.message == TERMINATED_MESSAGE }

  predicate IsSessionTerminated(f: Failure) { f.SessionTerminated? || (f.Raised? && IsTerminatedError(f.error)) }

  /** The client tells a terminated session by the code and the message of the error. */
  lemma TerminatedByItsText(f: Failure)
    ensures IsSessionTerminated(f) <==> IsTerminatedError(Describe(f))
  {
    if f.EmptySession? { assert Describe(f).message[15] == 'r' && TERMINATED_MESSAGE[15] == 's'; }
  }

  function Posts(who: Sender, n: nat): seq<Mark> { seq(n, _ => Post(who)) }

  // ------------------------------------------------- what a call amounts to

  /** How a call ends: its result, the state it leaves, and what it did. */
  datatype Called = Called(result: Result<Response, Failure>, state: State, trace: seq<Mark>)

  /** What becomes of an initialize payload. */
  function Payload(r: Response): seq<Mark> {
    if r.refusal.Some? then [] else if r.unrecordable.Some? then [Accepted] else [Accepted, Recorded]
  }

  /** A send of initialize whose payload must be accepted and recorded for the result to be good. */
  function Initializing(transport: Transport, initialize: Request, who: Sender, state: State): Called {
    var sent := transport(initialize, state);
    var marks := Posts(who, sent.posts);
    if sent.result.Err? then Called(sent.result, sent.state, marks)
    else
      var r := sent.result.value;
      Called(if r.refusal.Some? then Err(Raised(r.refusal.value))
             else if r.unrecordable.Some? then Err(Raised(r.unrecordable.value)) else sent.result,
             sent.state, marks + Payload(r))
  }

  /** The request's last send. */
  function LastSend(transport: Transport, request: Request, state: State): Called {
    var sent := transport(request, state);
    Called(sent.result, sent.state, Posts(Itself, sent.posts))
  }

  function Then(done: seq<Mark>, rest: Called): Called { rest.(trace := done + rest.trace) }

  /** What follows a first send that found the session terminated. */
  function Recovering(transport: Transport, request: Request, initialize: Request, known: bool, first: Sent): Called {
    if request.initialize then LastSend(transport, request, first.state)
    else if !known then Called(first.result, first.state, [])
    else
      var again := Initializing(transport, initialize, Recovery, first.state);
      if again.result.Err? then again else Then(again.trace, LastSend(transport, request, again.state))
  }

  function Sending(transport: Transport, request: Request, initialize: Request, known: bool, state: State): Called {
    var first := transport(request, state);
    var marks := Posts(Itself, first.posts);
    if first.result.Ok? || !IsSessionTerminated(first.result.error) then Called(first.result, first.state, marks)
    else Then(marks + [Terminated], Recovering(transport, request, initialize, known, first))
  }

  function CallOf(transport: Transport, request: Request, initialize: Request, known: bool, state: State): Called {
    if request.initialize || known then Sending(transport, request, initialize, known, state)
    else
      var automatic := Initializing(transport, initialize, Automatic, state);
      Then(automatic.trace, Sending(transport, request, initialize, true, automatic.state))
  }

  // ------------------------------------------------------------- the client

  /** Each method also returns, as a ghost, what it did. */
  class Client {
    const transport: Transport
    /** The initialize request the client makes by itself. */
    const initialize: Request
    const startError: Option<Error>
    /** Whether `last_initialize_params_` is set. */
    var known: bool
    var state: State

    constructor (transport: Transport, initialize: Request, startError: Option<Error>)
      ensures this.transport == transport && this.initialize == initialize && this.startError == startError
      ensures !known && state == State(0, "")
    {
      this.transport, this.initialize, this.startError := transport, initialize, startError;
      known, state := false, State(0, "");
    }

    /** `transport_->send`. */
    method Send(request: Request, who: Sender) returns (result: Result<Response, Failure>, ghost done: seq<Mark>)
      modifies this`state
      ensures var sent := transport(request, old(state));
        result == sent.result && state == sent.state && done == Posts(who, sent.posts)
    {
      var sent := transport(request, state);
      state := sent.state;
      return sent.result, Posts(who, sent.posts);
    }

    /** Sends initialize, and hands its payload to `require_initialize_payload` and `record_server_capabilities`. */
    method Initialize(who: Sender) returns (failure: Option<Failure>, ghost done: seq<Mark>)
      modifies this`state
      ensures var all := Initializing(transport, initialize, who, old(state));
        && state == all.state && done == all.trace
        && failure == if all.result.Err? then Some(all.result.error) else None
    {
      var response;
      response, done := Send(initialize, who);
      if response.Err? {
        return Some(response.error), done;
      }
      if response.value.refusal.Some? {
        return Some(Raised(response.value.refusal.value)), done;
      }
      if response.value.unrecordable.Some? {
        return Some(Raised(response.value.unrecordable.value)), done + [Accepted];
      }
      return None, done + [Accepted, Recorded];
    }

    /** `Client::send_rpc_request`. */
    method SendRpcRequest(request: Request) returns (result: Result<Response, Failure>, ghost done: seq<Mark>)
      modifies this
      ensures startError.Some? ==> result == Err(Raised(startError.value)) && state == old(state) && done == []
      ensures startError.None? ==>
        Called(result, state, done) == CallOf(transport, request, initialize, old(known), old(state))
      ensures known == (old(known) || (startError.None? && !request.initialize))
    {
      done := [];
      if startError.Some? {
        return Err(Raised(startError.value)), done;
      }
      if !request.initialize && !known {
        known := true;
        var ignored;
        ignored, done := Initialize(Automatic);
      }
      ghost var own;
      result, own := SendAndRecover(request);
      done := done + own;
    }

    /** What stands between the two sends of a request; a failure ends the call. */
    method Recover(request: Request, ghost first: Sent, error: Failure) returns (failure: Option<Failure>, ghost done: seq<Mark>)
      requires first.result == Err(error) && state == first.state
      modifies this`state
      ensures Recovering(transport, request, initialize, known, first)
           == if failure.Some? then Called(Err(failure.value), state, done)
              else Then(done, LastSend(transport, request, state))
    {
      failure, done := None, [];
      if !request.initialize {
        if !known {
          return Some(error), done;
        }
        failure, done := Initialize(Recovery);
      }
    }

    method SendAndRecover(request: Request) returns (result: Result<Response, Failure>, ghost done: seq<Mark>)
      modifies this`state
      ensures Called(result, state, done) == Sending(transport, request, initialize, known, old(state))
    {
      var retriedAfterSessionReset := false;
      ghost var whole := Sending(transport, request, initialize, known, state);
      done := [];
      while true
        invariant !retriedAfterSessionReset ==> done == [] && whole == Sending(transport, request, initialize, known, state)
        invariant retriedAfterSessionReset ==> whole == Then(done, LastSend(transport, request, state))
        decreases !retriedAfterSessionReset
      {
        ghost var from := state;
        ghost var posts;
        result, posts := Send(request, Itself);
        if result.Ok? || retriedAfterSessionReset || !IsSessionTerminated(result.error) {
          return result, done + posts;
        }
        retriedAfterSessionReset := true;
        var failure;
        ghost var between;
        failure, between := Recover(request, transport(request, from), result.error);
        SendingResumes(transport, request, initialize, known, from, between, state, failure);
        done := posts + [Terminated] + between;
        if failure.Some? {
          return Err(failure.value), done;
        }
      }
    }
  }

  /** After a send that found the session terminated, what the recovery does and where it leaves the call. */
  lemma SendingResumes(transport: Transport, request: Request, initialize: Request, known: bool, from: State,
                       between: seq<Mark>, state: State, failure: Option<Failure>)
    requires var sent := transport(request, from); sent.result.Err? && IsSessionTerminated(sent.result.error)
    requires Recovering(transport, request, initialize, known, transport(request, from))
          == if failure.Some? then Called(Err(failure.value), state, between)
             else Then(between, LastSend(transport, request, state))
    ensures var marks := Posts(Itself, transport(request, from).posts) + [Terminated];
      Sending(transport, request, initialize, known, from)
        == if failure.Some? then Called(Err(failure.value), state, marks + between)
           else Then(marks + between, LastSend(transport, request, state))
  {
    ThenThen(Posts(Itself, transport(request, from).posts) + [Terminated], between, LastSend(transport, request, state));
  }

  lemma ThenThen(a: seq<Mark>, b: seq<Mark>, rest: Called)
    ensures Then(a, Then(b, rest)) == Then(a + b, rest)
  {
    assert a + (b + rest.trace) == a + b + rest.trace;
  }

  // ---------------------------------------------------------------- counts

  function Count(trace: seq<Mark>, who: Sender): nat {
    if trace == [] then 0 else (if trace[0] == Post(who) then 1 else 0) + Count(trace[1..], who)
  }

  lemma {:induction false} CountJoin(a: seq<Mark>, b: seq<Mark>, who: Sender)
    ensures Count(a + b, who) == Count(a, who) + Count(b, who)
  {
    if a == [] {
      assert a + b == b;
    } else {
      CountJoin(a[1..], b, who);
      assert (a + b)[1..] == a[1..] + b;
    }
  }

  lemma {:induction false} CountPosts(sender: Sender, n: nat, who: Sender)
    ensures Count(Posts(sender, n), who) == if sender == who then n else 0
  {
    if n > 0 {
      CountPosts(sender, n - 1, who);
      assert Posts(sender, n)[1..] == Posts(sender, n - 1);
    }
  }

  lemma CountInitializing(transport: Transport, initialize: Request, sender: Sender, state: State, who: Sender)
    ensures Count(Initializing(transport, initialize, sender, state).trace, who)
         == if sender == who then transport(initialize, state).posts else 0
  {
    var sent := transport(initialize, state);
    CountPosts(sender, sent.posts, who);
    if sent.result.Ok? {
      CountJoin(Posts(sender, sent.posts), Payload(sent.result.value), who);
      NoPosts(sent.result.value, who);
    }
  }

  lemma NoPosts(r: Response, who: Sender)
    ensures Count(Payload(r), who) == 0
  {
    assert [Accepted][1..] == [] && [Recorded][1..] == [] && [Accepted, Recorded][1..] == [Recorded];
  }

  ghost predicate Bounded(transport: Transport) {
    forall request, state :: transport(request, state).posts <= SendCap(request)
  }

  /** The most POSTs one send makes. */
  function SendCap(request: Request): nat { if request.initialize then 4 else 3 }

  lemma CountLast(transport: Transport, request: Request, state: State, who: Sender)
    requires Bounded(transport)
    ensures Count(LastSend(transport, request, state).trace, who) <= if who == Itself then SendCap(request) else 0
  {
    CountPosts(Itself, transport(request, state).posts, who);
  }

  lemma CountRecovering(transport: Transport, request: Request, initialize: Request, known: bool, first: Sent, who: Sender)
    requires Bounded(transport) && initialize.initialize
    ensures Count(Recovering(transport, request, initialize, known, first).trace, who)
         <= match who
            case Itself => SendCap(request)
            case Automatic => 0
            case Recovery => if request.initialize then 0 else 4
  {
    if request.initialize {
      CountLast(transport, request, first.state, who);
    } else {
      var again := Initializing(transport, initialize, Recovery, first.state);
      CountInitializing(transport, initialize, Recovery, first.state, who);
      CountLast(transport, request, again.state, who);
      CountJoin(again.trace, LastSend(transport, request, again.state).trace, who);
    }
  }

  lemma CountSending(transport: Transport, request: Request, initialize: Request, known: bool, state: State, who: Sender)
    requires Bounded(transport) && initialize.initialize
    ensures Count(Sending(transport, request, initialize, known, state).trace, who)
         <= match who
            case Itself => 2 * SendCap(request)
            case Automatic => 0
            case Recovery => if request.initialize then 0 else 4
  {
    var first := transport(request, state);
    CountPosts(Itself, first.posts, who);
    var marks, rest := Posts(Itself, first.posts), Recovering(transport, request, initialize, known, first).trace;
    CountRecovering(transport, request, initialize, known, first, who);
    CountJoin(marks, [Terminated], who);
    CountJoin(marks + [Terminated], rest, who);
  }

  /** The most POSTs of each kind in one call. */
  lemma CallBounded(transport: Transport, request: Request, initialize: Request, known: bool, state: State, who: Sender)
    requires Bounded(transport) && initialize.initialize
    ensures Count(CallOf(transport, request, initialize, known, state).trace, who)
         <= match who
            case Itself => 2 * SendCap(request)
            case Automatic => if request.initialize then 0 else 4
            case Recovery => if request.initialize then 0 else 4
  {
    var automatic := Initializing(transport, initialize, Automatic, state);
    CountSending(transport, request, initialize, known, state, who);
    CountInitializing(transport, initialize, Automatic, state, who);
    CountSending(transport, request, initialize, true, automatic.state, who);
    CountJoin(automatic.trace, Sending(transport, request, initialize, true, automatic.state).trace, who);
  }

  /** The state in which the call makes its last send of the request: where it starts, or
      after the automatic initialize, or where a terminated first send or its recovery left it. */
  function LastSentFrom(transport: Transport, request: Request, initialize: Request, known: bool, state: State): State {
    var start := if request.initialize || known then state else Initializing(transport, initialize, Automatic, state).state;
    var first := transport(request, start);
    if first.result.Ok? || !IsSessionTerminated(first.result.error) then start
    else if request.initialize then first.state
    else Initializing(transport, initialize, Recovery, first.state).state
  }

  /** A good result is the answer to the request's own last send, never that of an initialize made on the way. */
  lemma SuccessIsTheRequestsOwn(transport: Transport, request: Request, initialize: Request, known: bool, state: State)
    requires CallOf(transport, request, initialize, known, state).result.Ok?
    ensures var call := CallOf(transport, request, initialize, known, state);
      var last := transport(request, LastSentFrom(transport, request, initialize, known, state));
      call.result == last.result && call.state == last.state
  {
  }

  predicate SaysTerminated(e: Error) { e.code == -32600 && e.message == "http transport session was terminated" }

  /** How every call ends. `start` is where the request is first sent from. A first send that
      did not find the session terminated is the last; an initialize is then sent as it
      stands; any other request only if the initialize between succeeded, which decides otherwise. */
  lemma HowACallEnds(transport: Transport, request: Request, initialize: Request, known: bool, state: State, start: State)
    requires start == if request.initialize || known then state else transport(initialize, state).state
    ensures var call := CallOf(transport, request, initialize, known, state);
      var first := transport(request, start);
      var gone := first.result.Err? && SaysTerminated(Describe(first.result.error));
      var again := transport(initialize, first.state);
      if !gone then call.result == first.result && call.state == first.state
      else if request.initialize then
        var last := transport(request, first.state);
        call.result == last.result && call.state == last.state
      else if again.result.Err? then call.result == again.result && call.state == again.state
      else if again.result.value.refusal.Some? then
        call.result == Err(Raised(again.result.value.refusal.value)) && call.state == again.state
      else if again.result.value.unrecordable.Some? then
        call.result == Err(Raised(again.result.value.unrecordable.value)) && call.state == again.state
      else
        var last := transport(request, again.state);
        call.result == last.result && call.state == last.state
  {
    var first := transport(request, start);
    if first.result.Err? { TerminatedByItsText(first.result.error); }
  }

  // -------------------------------------------------------------- over HTTP

  /** The transport is the HTTP transport, talking to `server`. */
  ghost predicate Over(transport: Transport, server: Server, options: Options) {
    forall request, state {:trigger SendOf(server, options, request, state)} ::
      transport(request, state) == SendOf(server, options, request, state)
  }

  function AllPosts(trace: seq<Mark>): nat { Count(trace, Itself) + Count(trace, Automatic) + Count(trace, Recovery) }

  /**
   * Whatever the server answers, a call ends within fourteen POSTs, and posts the
   * request itself at most six times; an initialize, which the loop resends as it
   * stands, at most eight times.
   */
  lemma RetriesBounded(transport: Transport, server: Server, options: Options, request: Request, initialize: Request,
                       known: bool, state: State)
    requires Over(transport, server, options) && initialize.initialize
    ensures var trace := CallOf(transport, request, initialize, known, state).trace;
      && AllPosts(trace) <= (if request.initialize then 8 else 14)
      && Count(trace, Itself) <= if request.initialize then 8 else 6
  {
    forall r, s ensures transport(r, s).posts <= SendCap(r) { SendBounded(server, options, r, s); }
    CallBounded(transport, request, initialize, known, state, Itself);
    CallBounded(transport, request, initialize, known, state, Automatic);
    CallBounded(transport, request, initialize, known, state, Recovery);
  }

  /** A server that costs a request as many POSTs as it can: the number of an attempt picks the answer. */
  function Worst(n: nat): Exchange {
    if n in {0, 4, 7, 11} then NONCE
    else if n in {1, 5, 8, 12} then RENEWED
    else if n in {2, 6, 9, 13} then GONE
    else FINE
  }

  function WorstForInitialize(n: nat): Exchange {
    if n in {0, 4} then NONCE else if n in {1, 5} then RENEWED else GONE
  }

  const CALL := Request(false, None)
  const INITIALIZE := Request(true, None)

  /** Both bounds are reached: fourteen POSTs with six of the request itself, and eight of an initialize. */
  lemma BoundsAreReached(transport: Transport)
    ensures Over(transport, Worst, PLAIN) ==>
      var trace := CallOf(transport, CALL, INITIALIZE, false, State(0, "")).trace;
      AllPosts(trace) == 14 && Count(trace, Itself) == 6
    ensures Over(transport, WorstForInitialize, PLAIN) ==>
      var trace := CallOf(transport, INITIALIZE, INITIALIZE, false, State(0, "")).trace;
      AllPosts(trace) == 8 && Count(trace, Itself) == 8
  {
    if Over(transport, Worst, PLAIN) {
      WorstCall(transport, Itself);
      WorstCall(transport, Automatic);
      WorstCall(transport, Recovery);
    }
    if Over(transport, WorstForInitialize, PLAIN) {
      WorstInitialize(transport, Itself);
      WorstInitialize(transport, Automatic);
      WorstInitialize(transport, Recovery);
    }
  }

  /** The POSTs of a request that is sent, recovered and sent again. */
  lemma CountRecovered(transport: Transport, request: Request, initialize: Request, state: State,
                       first: Sent, again: Sent, last: Sent, who: Sender)
    requires !request.initialize
    requires first == transport(request, state) && first.result.Err? && IsSessionTerminated(first.result.error)
    requires again == transport(initialize, first.state) && again.result == Ok(GOOD)
    requires last == transport(request, again.state)
    ensures Count(Sending(transport, request, initialize, true, state).trace, who)
         == match who case Itself => first.posts + last.posts case Automatic => 0 case Recovery => again.posts
  {
    var marks := Posts(Itself, first.posts);
    var between := Initializing(transport, initialize, Recovery, first.state).trace;
    CountPosts(Itself, first.posts, who);
    CountPosts(Itself, last.posts, who);
    CountInitializing(transport, initialize, Recovery, first.state, who);
    CountJoin(between, Posts(Itself, last.posts), who);
    CountJoin(marks, [Terminated], who);
    CountJoin(marks + [Terminated], between + Posts(Itself, last.posts), who);
  }

  /** The POSTs of an initialize that is sent twice. */
  lemma CountResent(transport: Transport, request: Request, initialize: Request, state: State, first: Sent, last: Sent,
                    who: Sender)
    requires request.initialize
    requires first == transport(request, state) && first.result.Err? && IsSessionTerminated(first.result.error)
    requires last == transport(request, first.state)
    ensures Count(Sending(transport, request, initialize, false, state).trace, who)
         == if who == Itself then first.posts + last.posts else 0
  {
    var marks := Posts(Itself, first.posts);
    CountPosts(Itself, first.posts, who);
    CountPosts(Itself, last.posts, who);
    CountJoin(marks, [Terminated], who);
    CountJoin(marks + [Terminated], Posts(Itself, last.posts), who);
  }

  lemma ThreeOver(transport: Transport, server: Server, request: Request, state: State)
    requires Over(transport, server, PLAIN) && !request.initialize && request.unserializable.None?
    requires server(state.attempt) == NONCE && server(state.attempt + 1) == RENEWED && server(state.attempt + 2) == GONE
    ensures transport(request, state) == Sent(Err(SessionTerminated), 3, State(state.attempt + 3, ""))
  {
    ThreePosts(server, request, state);
  }

  lemma FourOver(transport: Transport, server: Server, request: Request, state: State)
    requires Over(transport, server, PLAIN) && request.initialize && request.unserializable.None?
    requires server(state.attempt) == NONCE && server(state.attempt + 1) == RENEWED && server(state.attempt + 2) == GONE
    requires server(state.attempt + 3) == GONE || server(state.attempt + 3) == FINE
    ensures transport(request, state)
         == Sent(if server(state.attempt + 3) == FINE then Ok(GOOD) else Err(SessionTerminated), 4, State(state.attempt + 4, ""))
  {
    FourPosts(server, request, state);
  }

  lemma WorstCall(transport: Transport, who: Sender)
    requires Over(transport, Worst, PLAIN)
    ensures Count(CallOf(transport, CALL, INITIALIZE, false, State(0, "")).trace, who) == if who == Itself then 6 else 4
  {
    FourOver(transport, Worst, INITIALIZE, State(0, ""));
    CountInitializing(transport, INITIALIZE, Automatic, State(0, ""), who);
    WorstSending(transport, who);
    CountJoin(Initializing(transport, INITIALIZE, Automatic, State(0, "")).trace,
              Sending(transport, CALL, INITIALIZE, true, State(4, "")).trace, who);
  }

  lemma WorstSending(transport: Transport, who: Sender)
    requires Over(transport, Worst, PLAIN)
    ensures Count(Sending(transport, CALL, INITIALIZE, true, State(4, "")).trace, who)
         == match who case Itself => 6 case Automatic => 0 case Recovery => 4
  {
    ThreeOver(transport, Worst, CALL, State(4, ""));
    FourOver(transport, Worst, INITIALIZE, State(7, ""));
    ThreeOver(transport, Worst, CALL, State(11, ""));
    CountRecovered(transport, CALL, INITIALIZE, State(4, ""), Sent(Err(SessionTerminated), 3, State(7, "")),
                   Sent(Ok(GOOD), 4, State(11, "")), Sent(Err(SessionTerminated), 3, State(14, "")), who);
  }

  lemma WorstInitialize(transport: Transport, who: Sender)
    requires Over(transport, WorstForInitialize, PLAIN)
    ensures Count(CallOf(transport, INITIALIZE, INITIALIZE, false, State(0, "")).trace, who) == if who == Itself then 8 else 0
  {
    FourOver(transport, WorstForInitialize, INITIALIZE, State(0, ""));
    FourOver(transport, WorstForInitialize, INITIALIZE, State(4, ""));
    CountResent(transport, INITIALIZE, INITIALIZE, State(0, ""),
                Sent(Err(SessionTerminated), 4, State(4, "")), Sent(Err(SessionTerminated), 4, State(8, "")), who);
  }

  // ------------------------------------------------- resent only if recovered

  /** After a terminated session the gate is shut until a payload is accepted and then recorded. */
  datatype Gate = Open | Shut | Cleared | Broken

  /** Follows a trace: `Broken` once the request is posted through a gate that is not open. */
  function Follow(gate: Gate, trace: seq<Mark>): Gate
    decreases |trace|
  {
    if trace == [] || gate == Broken then gate else Follow(Next(gate, trace[0]), trace[1..])
  }

  function Next(gate: Gate, mark: Mark): Gate {
    match mark
    case Post(who) => if who == Itself && gate != Open then Broken else gate
    case Terminated => Shut
    case Accepted => if gate == Shut then Cleared else gate
    case Recorded => if gate == Cleared then Open else gate
  }

  lemma {:induction false} FollowJoin(gate: Gate, a: seq<Mark>, b: seq<Mark>)
    ensures Follow(gate, a + b) == Follow(Follow(gate, a), b)
    decreases |a|
  {
    if a == [] {
      assert a + b == b;
    } else if gate != Broken {
      FollowJoin(Next(gate, a[0]), a[1..], b);
      assert (a + b)[1..] == a[1..] + b;
    }
  }

  lemma {:induction false} FollowPosts(gate: Gate, who: Sender, n: nat)
    requires gate == Open || who != Itself
    ensures Follow(gate, Posts(who, n)) == gate
  {
    if n > 0 {
      FollowPosts(gate, who, n - 1);
      assert Posts(who, n)[1..] == Posts(who, n - 1);
    }
  }

  lemma FollowInitializing(gate: Gate, transport: Transport, initialize: Request, who: Sender, state: State)
    requires who != Itself && (gate == Open || gate == Shut)
    ensures var done := Initializing(transport, initialize, who, state);
      && Follow(gate, done.trace) != Broken
      && (gate == Open || done.result.Ok? ==> Follow(gate, done.trace) == Open)
  {
    var sent := transport(initialize, state);
    FollowPosts(gate, who, sent.posts);
    if sent.result.Ok? {
      FollowJoin(gate, Posts(who, sent.posts), Payload(sent.result.value));
      assert [Accepted][1..] == [] && [Recorded][1..] == [] && [Accepted, Recorded][1..] == [Recorded];
    }
  }

  /** A request other than initialize is resent only after a recovery that was accepted and recorded. */
  lemma ResentOnlyAfterRecovery(transport: Transport, request: Request, initialize: Request, known: bool, state: State)
    requires !request.initialize
    ensures Follow(Open, CallOf(transport, request, initialize, known, state).trace) != Broken
  {
    FollowSending(transport, request, initialize, known, state);
    var automatic := Initializing(transport, initialize, Automatic, state);
    FollowInitializing(Open, transport, initialize, Automatic, state);
    FollowSending(transport, request, initialize, true, automatic.state);
    FollowJoin(Open, automatic.trace, Sending(transport, request, initialize, true, automatic.state).trace);
  }

  lemma FollowSending(transport: Transport, request: Request, initialize: Request, known: bool, state: State)
    requires !request.initialize
    ensures Follow(Open, Sending(transport, request, initialize, known, state).trace) != Broken
  {
    var first := transport(request, state);
    var marks := Posts(Itself, first.posts);
    FollowPosts(Open, Itself, first.posts);
    FollowRecovering(transport, request, initialize, known, first);
    FollowJoin(Open, marks, [Terminated]);
    assert [Terminated][1..] == [];
    FollowJoin(Open, marks + [Terminated], Recovering(transport, request, initialize, known, first).trace);
  }

  lemma FollowRecovering(transport: Transport, request: Request, initialize: Request, known: bool, first: Sent)
    requires !request.initialize
    ensures Follow(Shut, Recovering(transport, request, initialize, known, first).trace) != Broken
  {
    var again := Initializing(transport, initialize, Recovery, first.state);
    FollowInitializing(Shut, transport, initialize, Recovery, first.state);
    var last := LastSend(transport, request, again.state);
    FollowPosts(Open, Itself, |last.trace|);
    FollowJoin(Shut, again.trace, last.trace);
  }
}
