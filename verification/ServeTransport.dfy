/**
 * `Peer<RoleServer>::serve_transport`: the receive loop, the gate that stays shut
 * until the session is initialized, and the detached request workers it counts.
 * A message is named by its position in what has been received. The handler, the
 * transport and the thread library decide, event by event, how each step goes.
 */
module ServeTransport {
  import opened Common

  datatype Kind = Initialize | Initialized | Ping | Other(name: string)

  /** `stateless`: the params carry `_meta` with the protocol version key. */
  datatype Message =
    | Request(kind: Kind, stateless: bool)
    | Notification(kind: Kind, stateless: bool)
    | Response

  datatype Outcome = Success | Failure(error: Error)

  /** Where the loop stands. */
  datatype Loop =
    | Top                          // about to look at the token and to receive
    | Refusing(k: nat)             // sends the error reply of a request that came too early
    | Dispatching(k: nat)          // runs a request's handler inline
    | Replying(k: nat)             // sends the reply of a request handled inline
    | Spawning(k: nat)             // has counted a worker and starts its thread
    | Notifying(k: nat)            // runs a notification's handler
    | Leaving(result: Outcome)     // waits for the workers, with a result in hand
    | Gone(result: Outcome)        // has returned

  datatype Worker =
    | Running                      // about to run the handler
    | Handled                      // about to send the reply
    | Broken(error: Error)         // has failed and is about to record it
    | Ending                       // about to be uncounted

  datatype Action = Dispatched(k: nat) | Notified(k: nat)

  /**
   * `workers` holds the workers that have not ended. `log` lists the handlers that
   * were run, `replies` the requests replied to, both in order; `opening` is where in
   * the log the first successful initialized notification stands.
   */
  datatype State = State(
    initialized: bool, active: nat, firstError: Option<Error>, loop: Loop, workers: map<nat, Worker>,
    received: seq<Message>, log: seq<Action>, replies: seq<nat>, opening: Option<nat>)

  const INITIAL := State(false, 0, None, Top, map[], [], [], [], None)

  datatype Event =
    | Cancel | ReceiveError(error: Error) | ReceiveEnd | Receive(m: Message)
    | LoopSend(failed: Option<Error>) | LoopDispatch | ThreadStart(failed: Option<Error>) | LoopNotify(failed: Option<Error>)
    | Leave
    | WorkerDispatch(k: nat) | WorkerSend(k: nat) | WorkerFail(k: nat, error: Error) | WorkerRecord(k: nat) | WorkerEnd(k: nat)

  predicate AllowedEarly(m: Message) { m.Request? && (m.stateless || m.kind == Initialize || m.kind == Ping) }

  const NOT_INITIALIZED := Error(INVALID_REQUEST, "server peer transport session is not initialized", "")
  const UNCORRELATED := Error(INVALID_REQUEST, "server peer cannot dispatch an uncorrelated response", "")

  /** What the loop does next about the message it has just received as number `k`. */
  function Route(initialized: bool, m: Message, k: nat): Loop {
    match m
    case Request(kind, stateless) =>
      if !initialized && !AllowedEarly(m) then Refusing(k)
      else if kind == Initialize || (!initialized && !stateless) then Dispatching(k)
      else Spawning(k)
    case Notification(kind, stateless) =>
      if !initialized && !stateless && kind != Initialized then Leaving(Failure(NOT_INITIALIZED)) else Notifying(k)
    case Response => Leaving(Failure(UNCORRELATED))
  }

  predicate WorkerAt(s: State, k: nat, w: Worker) { k in s.workers && s.workers[k] == w }

  predicate Enabled(s: State, e: Event) {
    match e
    case Cancel => s.loop.Top?
    case ReceiveError(_) => s.loop.Top?
    case ReceiveEnd => s.loop.Top?
    case Receive(_) => s.loop.Top?
    case LoopSend(_) => s.loop.Refusing? || s.loop.Replying?
    case LoopDispatch => s.loop.Dispatching?
    case ThreadStart(_) => s.loop.Spawning?
    case LoopNotify(_) => s.loop.Notifying?
    case Leave => s.loop.Leaving? && s.active == 0
    case WorkerDispatch(k) => WorkerAt(s, k, Running)
    case WorkerSend(k) => WorkerAt(s, k, Handled)
    case WorkerFail(k, _) => WorkerAt(s, k, Running) || WorkerAt(s, k, Handled)
    case WorkerRecord(k) => k in s.workers && s.workers[k].Broken?
    case WorkerEnd(k) => WorkerAt(s, k, Ending)
  }

  function Uncount(active: nat): nat { if active > 0 then active - 1 else 0 }

  /** The first error recorded stays. */
  function FirstOf(recorded: Option<Error>, error: Error): Option<Error> {
    if recorded.None? then Some(error) else recorded
  }

  function Apply(s: State, e: Event): State
    requires Enabled(s, e)
  {
    match e
    case Cancel => s.(loop := Leaving(Success))
    case ReceiveError(error) => s.(loop := Leaving(Failure(error)))
    case ReceiveEnd => s.(loop := Leaving(Success))
    case Receive(m) =>
      var loop := Route(s.initialized, m, |s.received|);
      s.(received := s.received + [m], loop := loop, active := if loop.Spawning? then s.active + 1 else s.active)
    case LoopSend(failed) =>
      if failed.Some? then s.(loop := Leaving(Failure(failed.value))) else s.(loop := Top, replies := s.replies + [s.loop.k])
    case LoopDispatch => s.(loop := Replying(s.loop.k), log := s.log + [Dispatched(s.loop.k)])
    case ThreadStart(failed) =>
      if failed.Some? then s.(loop := Leaving(Failure(failed.value)), active := Uncount(s.active))
      else s.(loop := Top, workers := s.workers[s.loop.k := Running])
    case LoopNotify(failed) =>
      if failed.Some? then s.(loop := Leaving(Failure(failed.value)))
      else
        var opens := s.loop.k < |s.received| && s.received[s.loop.k].Notification? && s.received[s.loop.k].kind == Initialized;
        s.(loop := Top, log := s.log + [Notified(s.loop.k)], initialized := s.initialized || opens,
           opening := if s.opening.None? && opens then Some(|s.log|) else s.opening)
    case Leave => s.(loop := Gone(if s.firstError.Some? then Failure(s.firstError.value) else s.loop.result))
    case WorkerDispatch(k) => s.(workers := s.workers[k := Handled], log := s.log + [Dispatched(k)])
    case WorkerSend(k) => s.(workers := s.workers[k := Ending], replies := s.replies + [k])
    case WorkerFail(k, error) => s.(workers := s.workers[k := Broken(error)])
    case WorkerRecord(k) =>
      s.(workers := s.workers[k := Ending],
         firstError := FirstOf(s.firstError, s.workers[k].error))
    case WorkerEnd(k) => s.(workers := s.workers - {k}, active := Uncount(s.active))
  }

  ghost predicate Legal(s: State, events: seq<Event>)
    decreases |events|
  {
    events == [] || (Enabled(s, events[0]) && Legal(Apply(s, events[0]), events[1..]))
  }

  function Run(s: State, events: seq<Event>): State
    requires Legal(s, events)
    decreases |events|
  {
    if events == [] then s else Run(Apply(s, events[0]), events[1..])
  }

  // ---------------------------------------------------------- the invariant

  /** The count is the number of workers that have not ended, and one more while a thread is being started. */
  predicate CountInv(s: State) {
    && s.active == |s.workers.Keys| + (if s.loop.Spawning? then 1 else 0)
    && (s.loop.Gone? ==> s.active == 0)
  }

  predicate HasRequest(loop: Loop) { loop.Refusing? || loop.Dispatching? || loop.Replying? || loop.Spawning? }

  /** The loop holds a request it has just received; workers hold requests they took over from it. */
  predicate HeldInv(s: State) {
    && (HasRequest(s.loop) ==> s.loop.k < |s.received| && s.received[s.loop.k].Request? && s.loop.k !in s.workers)
    && (s.loop.Notifying? ==> s.loop.k < |s.received|)
    && (forall k :: k in s.workers ==> k < |s.received| && s.received[k].Request?)
  }

  /** A reply is still to come from whoever holds the request. */
  predicate Owed(s: State, k: nat) {
    (HasRequest(s.loop) && s.loop.k == k) || WorkerAt(s, k, Running) || WorkerAt(s, k, Handled)
  }

  /** Something has failed, and the loop can no longer return success. */
  predicate Doomed(s: State) {
    || s.firstError.Some?
    || ((s.loop.Leaving? || s.loop.Gone?) && s.loop.result.Failure?)
    || exists k :: k in s.workers && s.workers[k].Broken?
  }

  /** What has been replied to is a request to which no reply is owed any more. */
  predicate ReplyAt(s: State, k: nat) {
    k in s.replies ==> k < |s.received| && s.received[k].Request? && !Owed(s, k)
  }

  ghost predicate ReplyInv(s: State) { NoDup(s.replies) && forall k :: ReplyAt(s, k) }

  predicate AccountInv(s: State) {
    && (forall k :: 0 <= k < |s.received| && s.received[k].Request? ==> Accounted(s, k))
    && (s.loop.Gone? && s.firstError.Some? ==> s.loop.result == Failure(s.firstError.value))
  }

  /** A request is in the hands of a handler only if it may be. */
  predicate MayRun(s: State, k: nat) { k < |s.received| && (AllowedEarly(s.received[k]) || s.opening.Some?) }

  /** The gate is open exactly when the log has the initialized notification that opened it. */
  predicate OpeningInv(s: State) {
    && (s.initialized <==> s.opening.Some?)
    && (s.opening.Some? ==> OpensGate(s, s.opening.value))
  }

  /** The handler of an initialized notification has succeeded at this point of the log. */
  predicate OpensGate(s: State, j: nat) {
    && j < |s.log| && s.log[j].Notified? && s.log[j].k < |s.received|
    && s.received[s.log[j].k].Notification? && s.received[s.log[j].k].kind == Initialized
  }

  /** Whoever is about to run a handler may. */
  predicate HandsInv(s: State) {
    && (s.loop.Dispatching? || s.loop.Spawning? ==> MayRun(s, s.loop.k))
    && (forall k :: k in s.workers ==> MayRun(s, k))
  }

  /** Every handler of a request that has run was let through. */
  predicate LogInv(s: State) {
    forall i :: 0 <= i < |s.log| && s.log[i].Dispatched? ==>
      && s.log[i].k < |s.received| && s.received[s.log[i].k].Request?
      && (AllowedEarly(s.received[s.log[i].k]) || (s.opening.Some? && s.opening.value < i))
  }

  predicate GateInv(s: State) { OpeningInv(s) && HandsInv(s) && LogInv(s) }

  lemma EndCounted(s: State, k: nat)
    requires CountInv(s) && WorkerAt(s, k, Ending)
    ensures CountInv(Apply(s, WorkerEnd(k)))
  {
    var t := Apply(s, WorkerEnd(k));
    assert t.workers.Keys == s.workers.Keys - {k} && s.workers.Keys == t.workers.Keys + {k};
  }

  lemma StartCounted(s: State, failed: Option<Error>)
    requires CountInv(s) && HeldInv(s) && s.loop.Spawning?
    ensures CountInv(Apply(s, ThreadStart(failed)))
  {
    if failed.None? { assert Apply(s, ThreadStart(failed)).workers.Keys == s.workers.Keys + {s.loop.k}; }
  }

  lemma CountKept(s: State, e: Event)
    requires CountInv(s) && HeldInv(s) && Enabled(s, e)
    ensures CountInv(Apply(s, e))
  {
    if e.WorkerEnd? {
      EndCounted(s, e.k);
    } else if e.ThreadStart? {
      StartCounted(s, e.failed);
    } else {
      assert Apply(s, e).workers.Keys == s.workers.Keys;
    }
  }

  lemma HeldKept(s: State, e: Event)
    requires HeldInv(s) && Enabled(s, e)
    ensures HeldInv(Apply(s, e))
  {
  }

  /** A reply is sent for one request at a time, by whoever owes it. */
  lemma RepliesGrow(s: State, e: Event) returns (sent: seq<nat>)
    requires Enabled(s, e)
    ensures Apply(s, e).replies == s.replies + sent && s.received <= Apply(s, e).received
    ensures sent == [] || (|sent| == 1 && Owed(s, sent[0]))
  {
    sent := if e.WorkerSend? then [e.k] else if e.LoopSend? && e.failed.None? then [s.loop.k] else [];
  }

  /** Only the loop takes on a reply that was not owed before, and that for a new message. */
  lemma DebtsAreNew(s: State, e: Event, k: nat)
    requires HeldInv(s) && Enabled(s, e) && Owed(Apply(s, e), k)
    ensures Owed(s, k) || k == |s.received|
  {
  }

  lemma DebtIsPaid(s: State, e: Event, k: nat)
    requires HeldInv(s) && Enabled(s, e) && Owed(s, k)
    requires Apply(s, e).replies == s.replies + [k]
    ensures !Owed(Apply(s, e), k) && k < |s.received| && s.received[k].Request?
  {
    assert Apply(s, e).replies[|s.replies|] == k;
  }

  lemma ReplyKept(s: State, e: Event)
    requires HeldInv(s) && ReplyInv(s) && Enabled(s, e)
    ensures ReplyInv(Apply(s, e))
  {
    var t := Apply(s, e);
    var sent := RepliesGrow(s, e);
    if sent != [] {
      assert sent == [sent[0]] && ReplyAt(s, sent[0]);
      DebtIsPaid(s, e, sent[0]);
    }
    forall k ensures ReplyAt(t, k) {
      assert ReplyAt(s, k);
      if k in s.replies && Owed(t, k) { DebtsAreNew(s, e, k); }
    }
  }

  /** Nothing makes a failure go away. */
  lemma DoomedKept(s: State, e: Event)
    requires CountInv(s) && HeldInv(s) && Enabled(s, e) && Doomed(s)
    ensures Doomed(Apply(s, e))
  {
    var t := Apply(s, e);
    if exists k :: k in s.workers && s.workers[k].Broken? {
      var k :| k in s.workers && s.workers[k].Broken?;
      if e.WorkerRecord? && e.k == k {
        assert t.firstError.Some?;
      } else {
        assert k in s.workers.Keys;
        assert k in t.workers && t.workers[k].Broken?;
      }
    }
  }

  predicate Accounted(s: State, k: nat) { k in s.replies || Owed(s, k) || Doomed(s) }

  lemma LoopOwes(s: State, e: Event)
    requires HeldInv(s) && Enabled(s, e) && HasRequest(s.loop)
    ensures Accounted(Apply(s, e), s.loop.k)
  {
    if e.LoopSend? && e.failed.None? { assert Apply(s, e).replies[|s.replies|] == s.loop.k; }
  }

  lemma WorkerOwes(s: State, e: Event, k: nat)
    requires HeldInv(s) && Enabled(s, e) && (WorkerAt(s, k, Running) || WorkerAt(s, k, Handled))
    ensures Accounted(Apply(s, e), k)
  {
    if e.WorkerSend? && e.k == k {
      assert Apply(s, e).replies[|s.replies|] == k;
    } else if e.WorkerFail? && e.k == k {
      assert Apply(s, e).workers[k].Broken?;
    }
  }

  lemma AccountKept(s: State, e: Event, k: nat)
    requires CountInv(s) && HeldInv(s) && Enabled(s, e) && Accounted(s, k)
    ensures Accounted(Apply(s, e), k)
  {
    if Doomed(s) {
      DoomedKept(s, e);
    } else if k in s.replies {
      var sent := RepliesGrow(s, e);
    } else if HasRequest(s.loop) && s.loop.k == k {
      LoopOwes(s, e);
    } else {
      WorkerOwes(s, e, k);
    }
  }

  lemma OpeningKept(s: State, e: Event)
    requires HeldInv(s) && OpeningInv(s) && Enabled(s, e)
    ensures OpeningInv(Apply(s, e)) && s.log <= Apply(s, e).log && s.received <= Apply(s, e).received
    ensures s.opening.Some? ==> Apply(s, e).opening == s.opening
    ensures s.opening.None? && Apply(s, e).opening.Some? ==> Apply(s, e).opening.value == |s.log|
  {
  }

  lemma HandsKept(s: State, e: Event)
    requires HeldInv(s) && OpeningInv(s) && HandsInv(s) && Enabled(s, e)
    ensures HandsInv(Apply(s, e))
  {
    OpeningKept(s, e);
  }

  lemma LogKept(s: State, e: Event)
    requires HeldInv(s) && GateInv(s) && Enabled(s, e)
    ensures LogInv(Apply(s, e))
  {
    OpeningKept(s, e);
  }

  lemma GateKept(s: State, e: Event)
    requires HeldInv(s) && GateInv(s) && Enabled(s, e)
    ensures GateInv(Apply(s, e))
  {
    OpeningKept(s, e);
    HandsKept(s, e);
    LogKept(s, e);
  }

  ghost predicate Inv(s: State) {
    CountInv(s) && HeldInv(s) && ReplyInv(s) && AccountInv(s) && GateInv(s)
  }

  lemma AllAccounted(s: State, e: Event)
    requires Inv(s) && Enabled(s, e)
    ensures AccountInv(Apply(s, e))
  {
    var t := Apply(s, e);
    forall k | 0 <= k < |t.received| && t.received[k].Request? ensures Accounted(t, k) {
      if k < |s.received| {
        AccountKept(s, e, k);
      }
    }
  }

  lemma InvKept(s: State, e: Event)
    requires Inv(s) && Enabled(s, e)
    ensures Inv(Apply(s, e))
  {
    CountKept(s, e);
    HeldKept(s, e);
    ReplyKept(s, e);
    AllAccounted(s, e);
    GateKept(s, e);
  }

  lemma {:induction false} RunKeepsInv(s: State, events: seq<Event>)
    requires Inv(s) && Legal(s, events)
    ensures Inv(Run(s, events))
    decreases |events|
  {
    if events != [] {
      InvKept(s, events[0]);
      RunKeepsInv(Apply(s, events[0]), events[1..]);
    }
  }

  // --------------------------------------------------------------- theorems

  /** `serve_transport` has not returned while a worker it started is still at work. */
  lemma NeverReturnsOverAWorker(events: seq<Event>)
    requires Legal(INITIAL, events)
    ensures var s := Run(INITIAL, events); s.loop.Gone? ==> s.active == 0 && s.workers == map[]
  {
    RunKeepsInv(INITIAL, events);
    var s := Run(INITIAL, events);
    if s.loop.Gone? { assert s.workers.Keys == {}; }
  }

  /** If it returns success, every request received has been replied to exactly once. */
  lemma SuccessMeansOneReplyEach(events: seq<Event>, k: nat)
    requires Legal(INITIAL, events)
    requires var s := Run(INITIAL, events); s.loop == Gone(Success) && k < |s.received|
    ensures var s := Run(INITIAL, events);
      NoDup(s.replies) && (s.received[k].Request? <==> k in s.replies)
  {
    RunKeepsInv(INITIAL, events);
    NeverReturnsOverAWorker(events);
    var s := Run(INITIAL, events);
    assert ReplyAt(s, k);
    if s.received[k].Request? { assert Accounted(s, k); }
  }

  /** However it ends, no request is replied to twice. */
  lemma NoRequestRepliedTwice(events: seq<Event>)
    requires Legal(INITIAL, events)
    ensures NoDup(Run(INITIAL, events).replies)
  {
    RunKeepsInv(INITIAL, events);
  }

  /** A handler runs before the first successful initialized notification only for a request that may come early. */
  lemma GateHolds(events: seq<Event>, i: nat)
    requires Legal(INITIAL, events)
    requires var s := Run(INITIAL, events); i < |s.log| && s.log[i].Dispatched?
    ensures var s := Run(INITIAL, events);
      && s.log[i].k < |s.received| && s.received[s.log[i].k].Request?
      && (AllowedEarly(s.received[s.log[i].k]) || exists j :: 0 <= j < i && OpensGate(s, j))
  {
    RunKeepsInv(INITIAL, events);
    var s := Run(INITIAL, events);
    if !AllowedEarly(s.received[s.log[i].k]) { assert OpensGate(s, s.opening.value); }
  }

  /** Workers get no initialize request, and before the session is initialized
      stateless requests only; the loop itself runs all others and no more. */
  predicate InlineInv(s: State) {
    && (forall k :: k in s.workers ==> MayDetach(s, k))
    && (s.loop.Spawning? ==> MayDetach(s, s.loop.k))
    && (s.loop.Dispatching? || s.loop.Replying? ==> RunsInline(s, s.loop.k))
  }

  predicate RunsInline(s: State, k: nat) {
    k < |s.received| && s.received[k].Request?
    && (s.received[k].kind == Initialize || (!s.received[k].stateless && !s.initialized))
  }

  predicate MayDetach(s: State, k: nat) {
    k < |s.received| && s.received[k].Request? && s.received[k].kind != Initialize
    && (s.received[k].stateless || s.initialized)
  }

  lemma InlineKept(s: State, e: Event)
    requires InlineInv(s) && Enabled(s, e)
    ensures InlineInv(Apply(s, e))
  {
  }

  /** The handshake runs on the receive thread: no worker ever has an initialize request. */
  lemma {:induction false} HandshakeRunsInline(s: State, events: seq<Event>)
    requires InlineInv(s) && Legal(s, events)
    ensures InlineInv(Run(s, events))
    decreases |events|
  {
    if events != [] {
      InlineKept(s, events[0]);
      HandshakeRunsInline(Apply(s, events[0]), events[1..]);
    }
  }

  // ------------------------------------------------------------ in place

  /** `WorkerState`, each method one hold of its mutex. */
  class WorkerState {
    var active: nat
    var firstError: Option<Error>

    constructor ()
      ensures active == INITIAL.active && firstError == INITIAL.firstError
    {
      active, firstError := 0, None;
    }

    /** `record_worker_error`, before it closes the transport. */
    method RecordWorkerError(error: Error)
      modifies this`firstError
      ensures firstError == FirstOf(old(firstError), error)
    {
      if firstError.None? {
        firstError := Some(error);
      }
    }

    /** `finish_worker`. */
    method FinishWorker()
      modifies this`active
      ensures active == Uncount(old(active))
    {
      if active > 0 {
        active := active - 1;
      }
    }
  }
}
