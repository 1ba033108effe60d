/**
 * What `serve_transport` does about each message it receives, over every run: which
 * requests reach their handler and which are refused, which notifications are run,
 * and what the loop returns. The gate a message met is read off the log: an
 * initialized notification received before it whose handler has succeeded.
 */
module ServeDispatch {
  import opened Common
  import opened ServeTransport

  /** The session was initialized by a notification received before message `k`. */
  ghost predicate OpenedBefore(s: State, k: nat) { exists j :: 0 <= j < |s.log| && OpensGate(s, j) && s.log[j].k < k }

  /** A request that found the gate shut, and is none of those that may come before. */
  ghost predicate CameTooEarly(s: State, k: nat) {
    && k < |s.received| && s.received[k].Request? && !OpenedBefore(s, k)
    && !s.received[k].stateless && s.received[k].kind != Initialize && s.received[k].kind != Ping
  }

  /** A notification that found the gate shut, and is none of those that may come before. */
  ghost predicate NotedTooEarly(s: State, k: nat) {
    && k < |s.received| && s.received[k].Notification? && !OpenedBefore(s, k)
    && !s.received[k].stateless && s.received[k].kind != Initialized
  }

  // ------------------------------------------------------- the log and the gate

  predicate HasMessage(loop: Loop) { HasRequest(loop) || loop.Notifying? }

  /** The loop is at the last message, and the log speaks of messages received. */
  predicate LastInv(s: State) {
    && (HasMessage(s.loop) ==> s.loop.k + 1 == |s.received|)
    && (s.loop.Notifying? ==> s.received[s.loop.k].Notification?)
    && (forall j :: 0 <= j < |s.log| ==> s.log[j].k < |s.received|)
    && (forall k :: k in s.workers ==> k < |s.received|)
  }

  /** No initialized notification in the log is of an earlier message than the one that opened the gate. */
  predicate FirstInv(s: State) {
    forall j :: 0 <= j < |s.log| && OpensGate(s, j) ==>
      s.opening.Some? && s.opening.value < |s.log| && s.log[s.opening.value].k <= s.log[j].k
  }

  predicate Shut(s: State, k: nat) { s.opening.None? || s.opening.value >= |s.log| || s.log[s.opening.value].k >= k }

  lemma ShutIs(s: State, k: nat)
    requires OpeningInv(s) && FirstInv(s)
    ensures Shut(s, k) <==> !OpenedBefore(s, k)
  {
    if !Shut(s, k) { assert OpensGate(s, s.opening.value); }
  }

  /** The handlers an event runs. */
  function Runs(s: State, e: Event): seq<Action> {
    if e.LoopDispatch? && s.loop.Dispatching? then [Dispatched(s.loop.k)]
    else if e.WorkerDispatch? then [Dispatched(e.k)]
    else if e.LoopNotify? && e.failed.None? && s.loop.Notifying? then [Notified(s.loop.k)]
    else []
  }

  lemma LogGrows(s: State, e: Event)
    requires Enabled(s, e)
    ensures Apply(s, e).log == s.log + Runs(s, e)
  {
  }

  lemma LastKept(s: State, e: Event)
    requires LastInv(s) && Enabled(s, e)
    ensures LastInv(Apply(s, e))
  {
    LogGrows(s, e);
  }

  lemma FirstKept(s: State, e: Event)
    requires OpeningInv(s) && LastInv(s) && FirstInv(s) && Enabled(s, e)
    ensures FirstInv(Apply(s, e))
  {
    LogGrows(s, e);
  }

  /** The gate that a message met does not change any more. */
  lemma GateIsPast(s: State, e: Event, k: nat)
    requires OpeningInv(s) && LastInv(s) && Enabled(s, e) && k < |s.received|
    ensures Shut(Apply(s, e), k) == Shut(s, k)
  {
  }

  lemma NewMessageMeetsTheGate(s: State, m: Message)
    requires OpeningInv(s) && LastInv(s) && s.loop.Top?
    ensures Shut(Apply(s, Receive(m)), |s.received|) <==> !s.initialized
  {
  }

  // ------------------------------------------------------------------ requests

  predicate Refusable(s: State, k: nat)
    requires k < |s.received|
  {
    && Shut(s, k) && s.received[k].Request?
    && !s.received[k].stateless && s.received[k].kind != Initialize && s.received[k].kind != Ping
  }

  predicate Ran(s: State, k: nat) { Dispatched(k) in s.log }

  predicate LoopAt(s: State, k: nat) { HasRequest(s.loop) && s.loop.k == k }

  /** A request is refused, and never run, exactly if it came too early; otherwise its
      handler has run once the reply is in hand or sent, and not before. */
  predicate RoleAt(s: State, k: nat) {
    k < |s.received| && s.received[k].Request? ==>
      if Refusable(s, k) then !Ran(s, k) && k !in s.workers && (LoopAt(s, k) ==> s.loop.Refusing?)
      else
        && (LoopAt(s, k) ==> !s.loop.Refusing?)
        && (k in s.replies || (LoopAt(s, k) && s.loop.Replying?) || WorkerAt(s, k, Handled) ==> Ran(s, k))
        && ((LoopAt(s, k) && !s.loop.Replying?) || WorkerAt(s, k, Running) ==> !Ran(s, k))
  }

  /** Messages that are not requests are in nobody's hands but the loop's. */
  predicate OnlyRequests(s: State, k: nat) {
    Ran(s, k) || LoopAt(s, k) || k in s.workers ==> k < |s.received| && s.received[k].Request?
  }

  lemma RanAfter(s: State, e: Event, k: nat)
    requires Enabled(s, e)
    ensures Ran(Apply(s, e), k) <==> Ran(s, k) || Dispatched(k) in Runs(s, e)
  {
    LogGrows(s, e);
  }

  lemma NewRequestHasItsRole(s: State, m: Message)
    requires HeldInv(s) && OpeningInv(s) && LastInv(s) && ReplyAt(s, |s.received|) && OnlyRequests(s, |s.received|) && s.loop.Top?
    ensures RoleAt(Apply(s, Receive(m)), |s.received|)
  {
    NewMessageMeetsTheGate(s, m);
  }

  lemma RoleKeptByLoop(s: State, e: Event, k: nat)
    requires HeldInv(s) && OpeningInv(s) && LastInv(s) && ReplyAt(s, k) && RoleAt(s, k) && Enabled(s, e)
    requires k < |s.received| && (e.LoopSend? || e.LoopDispatch? || e.ThreadStart? || e.LoopNotify?)
    ensures RoleAt(Apply(s, e), k)
  {
    GateIsPast(s, e, k);
    RanAfter(s, e, k);
  }

  lemma RoleKeptByWorker(s: State, e: Event, k: nat)
    requires HeldInv(s) && OpeningInv(s) && LastInv(s) && ReplyAt(s, k) && RoleAt(s, k) && Enabled(s, e)
    requires k < |s.received|
    requires e.WorkerDispatch? || e.WorkerSend? || e.WorkerFail? || e.WorkerRecord? || e.WorkerEnd?
    ensures RoleAt(Apply(s, e), k)
  {
    GateIsPast(s, e, k);
    RanAfter(s, e, k);
  }

  lemma RoleKeptByRest(s: State, e: Event, k: nat)
    requires HeldInv(s) && OpeningInv(s) && LastInv(s) && RoleAt(s, k) && Enabled(s, e)
    requires k < |s.received| && (e.Cancel? || e.ReceiveError? || e.ReceiveEnd? || e.Receive? || e.Leave?)
    ensures RoleAt(Apply(s, e), k)
  {
    GateIsPast(s, e, k);
    RanAfter(s, e, k);
  }

  lemma OnlyRequestsKept(s: State, e: Event, k: nat)
    requires HeldInv(s) && OnlyRequests(s, k) && Enabled(s, e)
    ensures OnlyRequests(Apply(s, e), k)
  {
    RanAfter(s, e, k);
  }

  lemma RoleKept(s: State, e: Event, k: nat)
    requires HeldInv(s) && OpeningInv(s) && LastInv(s) && ReplyAt(s, k) && OnlyRequests(s, k) && RoleAt(s, k) && Enabled(s, e)
    ensures RoleAt(Apply(s, e), k)
  {
    if k >= |s.received| {
      if e.Receive? && k == |s.received| { NewRequestHasItsRole(s, e.m); }
    } else if e.LoopSend? || e.LoopDispatch? || e.ThreadStart? || e.LoopNotify? {
      RoleKeptByLoop(s, e, k);
    } else if e.WorkerDispatch? || e.WorkerSend? || e.WorkerFail? || e.WorkerRecord? || e.WorkerEnd? {
      RoleKeptByWorker(s, e, k);
    } else {
      RoleKeptByRest(s, e, k);
    }
  }

  // ------------------------------------------- notifications and stray responses

  predicate Unwelcome(s: State, k: nat)
    requires k < |s.received|
  {
    Shut(s, k) && s.received[k].Notification? && !s.received[k].stateless && s.received[k].kind != Initialized
  }

  predicate Noted(s: State, k: nat) { Notified(k) in s.log }

  predicate Failing(s: State) { (s.loop.Leaving? || s.loop.Gone?) && s.loop.result.Failure? }

  /** The loop leaves, or has left, with this error, unless a worker's error came before it. */
  predicate EndsWith(s: State, error: Error) {
    || s.loop == Leaving(Failure(error))
    || s.loop == Gone(Failure(if s.firstError.Some? then s.firstError.value else error))
  }

  /** A notification is run unless it came too early, which ends the loop, as a stray response does. */
  predicate NoteAt(s: State, k: nat) {
    k < |s.received| ==>
      match s.received[k]
      case Request(_, _) => !Noted(s, k)
      case Notification(_, _) =>
        if Unwelcome(s, k) then !Noted(s, k) && k + 1 == |s.received| && EndsWith(s, NOT_INITIALIZED)
        else
          && (Noted(s, k) || s.loop == Notifying(k) || Failing(s))
          && (s.loop == Notifying(k) ==> !Noted(s, k))
      case Response => !Noted(s, k) && k + 1 == |s.received| && EndsWith(s, UNCORRELATED)
  }

  lemma NotedAfter(s: State, e: Event, k: nat)
    requires Enabled(s, e)
    ensures Noted(Apply(s, e), k) <==> Noted(s, k) || Notified(k) in Runs(s, e)
  {
    LogGrows(s, e);
  }

  lemma NewMessageIsNoted(s: State, m: Message)
    requires OpeningInv(s) && LastInv(s) && s.loop.Top?
    ensures NoteAt(Apply(s, Receive(m)), |s.received|)
  {
    NewMessageMeetsTheGate(s, m);
    NotedAfter(s, Receive(m), |s.received|);
    assert !Noted(s, |s.received|);
  }

  lemma GoneHasNoWorkers(s: State)
    requires CountInv(s) && s.loop.Gone?
    ensures s.workers == map[]
  {
    assert s.workers.Keys == {};
  }

  lemma NoteKeptByWorker(s: State, e: Event, k: nat)
    requires CountInv(s) && NoteAt(s, k) && k < |s.received| && Enabled(s, e)
    requires e.WorkerDispatch? || e.WorkerSend? || e.WorkerFail? || e.WorkerRecord? || e.WorkerEnd?
    ensures NoteAt(Apply(s, e), k)
  {
    if s.loop.Gone? { GoneHasNoWorkers(s); }
    NotedAfter(s, e, k);
  }

  lemma NoteKeptByLoop(s: State, e: Event, k: nat)
    requires OpeningInv(s) && LastInv(s) && NoteAt(s, k) && k < |s.received| && Enabled(s, e)
    requires !(e.WorkerDispatch? || e.WorkerSend? || e.WorkerFail? || e.WorkerRecord? || e.WorkerEnd?)
    ensures NoteAt(Apply(s, e), k)
  {
    GateIsPast(s, e, k);
    NotedAfter(s, e, k);
  }

  lemma NoteKept(s: State, e: Event, k: nat)
    requires OpeningInv(s) && LastInv(s) && CountInv(s) && NoteAt(s, k) && Enabled(s, e)
    ensures NoteAt(Apply(s, e), k)
  {
    if k >= |s.received| {
      if e.Receive? && k == |s.received| { NewMessageIsNoted(s, e.m); }
    } else if e.WorkerDispatch? || e.WorkerSend? || e.WorkerFail? || e.WorkerRecord? || e.WorkerEnd? {
      NoteKeptByWorker(s, e, k);
    } else {
      NoteKeptByLoop(s, e, k);
    }
  }

  lemma LogStaysDistinct(s: State, e: Event)
    requires NoDup(s.log) && HeldInv(s) && LastInv(s) && Enabled(s, e)
    requires forall k :: RoleAt(s, k) && NoteAt(s, k) && OnlyRequests(s, k)
    ensures NoDup(Apply(s, e).log)
  {
    LogGrows(s, e);
    if e.LoopDispatch? { assert RoleAt(s, s.loop.k); }
    if e.WorkerDispatch? { assert RoleAt(s, e.k) && OnlyRequests(s, e.k); }
    if e.LoopNotify? { assert NoteAt(s, s.loop.k); }
  }

  // ------------------------------------------------------------------- all runs

  ghost predicate DispatchInv(s: State) {
    && LastInv(s) && FirstInv(s) && NoDup(s.log)
    && forall k :: RoleAt(s, k) && NoteAt(s, k) && OnlyRequests(s, k)
  }

  lemma DispatchKept(s: State, e: Event)
    requires Inv(s) && DispatchInv(s) && Enabled(s, e)
    ensures DispatchInv(Apply(s, e))
  {
    LastKept(s, e);
    FirstKept(s, e);
    LogStaysDistinct(s, e);
    forall k ensures RoleAt(Apply(s, e), k) && NoteAt(Apply(s, e), k) && OnlyRequests(Apply(s, e), k) {
      assert RoleAt(s, k) && ReplyAt(s, k);
      RoleKept(s, e, k);
      NoteKept(s, e, k);
      OnlyRequestsKept(s, e, k);
    }
  }

  lemma {:induction false} RunKeepsDispatch(s: State, events: seq<Event>)
    requires Inv(s) && DispatchInv(s) && Legal(s, events)
    ensures DispatchInv(Run(s, events)) && Inv(Run(s, events))
    decreases |events|
  {
    if events != [] {
      InvKept(s, events[0]);
      DispatchKept(s, events[0]);
      RunKeepsDispatch(Apply(s, events[0]), events[1..]);
    }
  }

  /**
   * If the loop returns success, every request is replied to once, and the handler of
   * a request has run exactly once unless the request came too early, when it has
   * not run at all and the reply is the refusal.
   */
  lemma RefusedIffTooEarly(events: seq<Event>, k: nat)
    requires Legal(INITIAL, events)
    requires var s := Run(INITIAL, events); s.loop == Gone(Success) && k < |s.received| && s.received[k].Request?
    ensures var s := Run(INITIAL, events);
      && k in s.replies && NoDup(s.replies) && NoDup(s.log)
      && (Dispatched(k) !in s.log <==> CameTooEarly(s, k))
  {
    RunKeepsDispatch(INITIAL, events);
    SuccessMeansOneReplyEach(events, k);
    var s := Run(INITIAL, events);
    assert RoleAt(s, k);
    ShutIs(s, k);
  }

  /** However the run goes on, a request that came too early is never run, and no handler runs twice. */
  lemma TooEarlyIsNeverRun(events: seq<Event>, k: nat)
    requires Legal(INITIAL, events) && CameTooEarly(Run(INITIAL, events), k)
    ensures var s := Run(INITIAL, events); Dispatched(k) !in s.log && NoDup(s.log)
  {
    RunKeepsDispatch(INITIAL, events);
    var s := Run(INITIAL, events);
    assert RoleAt(s, k);
    ShutIs(s, k);
  }

  /**
   * A notification is run exactly once if it found the gate open, is stateless or is
   * the initialized notification, as long as nothing has failed; any other ends the
   * loop with the error that the session is not initialized, or a worker's.
   */
  lemma NotificationsAreRunIff(events: seq<Event>, k: nat)
    requires Legal(INITIAL, events)
    requires var s := Run(INITIAL, events); k < |s.received| && s.received[k].Notification?
    ensures var s := Run(INITIAL, events);
      if NotedTooEarly(s, k) then
        && Notified(k) !in s.log && k + 1 == |s.received|
        && EndsWith(s, Error(-32600, "server peer transport session is not initialized", ""))
      else (s.loop.Top? || s.loop == Gone(Success) ==> Notified(k) in s.log && NoDup(s.log))
  {
    RunKeepsDispatch(INITIAL, events);
    var s := Run(INITIAL, events);
    assert NoteAt(s, k);
    ShutIs(s, k);
  }

  /** A response nobody waits for ends the loop. */
  lemma StrayResponseEndsTheLoop(events: seq<Event>, k: nat)
    requires Legal(INITIAL, events)
    requires var s := Run(INITIAL, events); k < |s.received| && s.received[k].Response?
    ensures var s := Run(INITIAL, events);
      k + 1 == |s.received| && EndsWith(s, Error(-32600, "server peer cannot dispatch an uncorrelated response", ""))
  {
    RunKeepsDispatch(INITIAL, events);
    assert NoteAt(Run(INITIAL, events), k);
  }

  // ----------------------------------------------------------- what is returned

  /** The errors an event brings: a failed step has its own, a message may be one by itself. */
  function ErrorsOf(s: State, e: Event): set<Error> {
    match e
    case ReceiveError(error) => {error}
    case LoopSend(failed) => if failed.Some? then {failed.value} else {}
    case ThreadStart(failed) => if failed.Some? then {failed.value} else {}
    case LoopNotify(failed) => if failed.Some? then {failed.value} else {}
    case WorkerFail(_, error) => {error}
    case Receive(m) =>
      if m.Response? then {UNCORRELATED}
      else if m.Notification? && !s.initialized && !m.stateless && m.kind != Initialized then {NOT_INITIALIZED}
      else {}
    case _ => {}
  }

  function ErrorsIn(s: State, events: seq<Event>): set<Error>
    requires Legal(s, events)
    decreases |events|
  {
    if events == [] then {} else ErrorsOf(s, events[0]) + ErrorsIn(Apply(s, events[0]), events[1..])
  }

  /** Every error the state holds was brought by an event. */
  predicate Named(s: State, seen: set<Error>) {
    && (s.firstError.Some? ==> s.firstError.value in seen)
    && (Failing(s) ==> s.loop.result.error in seen)
    && (forall k :: k in s.workers && s.workers[k].Broken? ==> s.workers[k].error in seen)
  }

  lemma NamedKept(s: State, e: Event, seen: set<Error>)
    requires Named(s, seen) && Enabled(s, e)
    ensures Named(Apply(s, e), seen + ErrorsOf(s, e))
  {
  }

  /** The loop is bound to fail once an event has brought an error, and not before. */
  lemma DoomedIff(s: State, e: Event)
    requires CountInv(s) && HeldInv(s) && Enabled(s, e)
    ensures Doomed(Apply(s, e)) <==> Doomed(s) || ErrorsOf(s, e) != {}
  {
    if Doomed(s) {
      DoomedKept(s, e);
    } else if e.WorkerFail? {
      assert Apply(s, e).workers[e.k].Broken?;
    }
  }

  lemma {:induction false} ErrorsAreNamed(s: State, events: seq<Event>, seen: set<Error>)
    requires Legal(s, events) && Named(s, seen)
    ensures Named(Run(s, events), seen + ErrorsIn(s, events))
    decreases |events|
  {
    if events == [] {
      assert seen + {} == seen;
    } else {
      var t := Apply(s, events[0]);
      NamedKept(s, events[0], seen);
      ErrorsAreNamed(t, events[1..], seen + ErrorsOf(s, events[0]));
      SetsJoin(seen, ErrorsOf(s, events[0]), ErrorsIn(t, events[1..]));
    }
  }

  lemma SetsJoin(a: set<Error>, b: set<Error>, c: set<Error>)
    ensures a + b + c == a + (b + c)
  {
  }

  lemma {:induction false} ErrorsDecide(s: State, events: seq<Event>)
    requires Inv(s) && Legal(s, events)
    ensures Doomed(Run(s, events)) <==> Doomed(s) || ErrorsIn(s, events) != {}
    decreases |events|
  {
    if events != [] {
      InvKept(s, events[0]);
      DoomedIff(s, events[0]);
      ErrorsDecide(Apply(s, events[0]), events[1..]);
    }
  }

  /** The loop returns success exactly when no event of the run has brought an error,
      and otherwise an error that one of them brought: a worker's, if one was recorded. */
  lemma SucceedsIffNothingFailed(events: seq<Event>)
    requires Legal(INITIAL, events) && Run(INITIAL, events).loop.Gone?
    ensures var s := Run(INITIAL, events);
      match s.loop.result
      case Success => ErrorsIn(INITIAL, events) == {}
      case Failure(error) => error in ErrorsIn(INITIAL, events) && (s.firstError.Some? ==> error == s.firstError.value)
  {
    RunKeepsInv(INITIAL, events);
    ErrorsDecide(INITIAL, events);
    ErrorsAreNamed(INITIAL, events, {});
    GoneHasNoWorkers(Run(INITIAL, events));
  }
}
