/**
 * The request workers of the two native client transports. A worker is accepted
 * under the mutex, sends its request, is counted out under the mutex, and then,
 * in another hold of it, enqueues the answer. A thread that cannot be started is
 * forgotten in a later hold. Workers are numbered; an id may be used again as soon
 * as the worker that had it is counted out.
 */
module RequestWorkers {
  import opened Common

  type Id = nat

  /** What the mutex guards, except the queue and the threads. */
  datatype Counters = Counters(closed: bool, inFlight: set<Id>, active: nat, completed: nat, failed: nat, timedOut: nat)

  const FRESH := Counters(false, {}, 0, 0, 0, 0)

  datatype Refusal = TransportClosed | DuplicateId

  /** The answer to a new request: none if it is accepted. */
  function Refused(c: Counters, id: Id): Option<Refusal> {
    if c.closed then Some(TransportClosed) else if id in c.inFlight then Some(DuplicateId) else None
  }

  function Accept(c: Counters, id: Id): Counters {
    if Refused(c, id).Some? then c else c.(inFlight := c.inFlight + {id}, active := c.active + 1)
  }

  function Forget(c: Counters, id: Id): Counters {
    c.(inFlight := c.inFlight - {id}, active := if c.active > 0 then c.active - 1 else 0)
  }

  function Finish(c: Counters, id: Id, failed: bool, timedOut: bool): Counters {
    Forget(c, id).(completed := c.completed + 1, failed := c.failed + (if failed then 1 else 0),
                   timedOut := c.timedOut + if timedOut then 1 else 0)
  }

  // ------------------------------------------------------------ in place

  /** The guarded fields, each method one hold of the mutex. */
  class NativeTransport {
    var closed: bool
    var inFlightRequestIds: set<Id>
    var activeRequestWorkers: nat
    var completedRequestWorkers: nat
    var failedRequestWorkers: nat
    var timedOutRequestWorkers: nat

    function Value(): Counters reads this {
      Counters(closed, inFlightRequestIds, activeRequestWorkers, completedRequestWorkers, failedRequestWorkers,
               timedOutRequestWorkers)
    }

    constructor ()
      ensures Value() == FRESH
    {
      closed, inFlightRequestIds := false, {};
      activeRequestWorkers, completedRequestWorkers, failedRequestWorkers, timedOutRequestWorkers := 0, 0, 0, 0;
    }

    /** `start_request_thread`, up to the start of the thread. */
    method StartRequest(id: Id) returns (refusal: Option<Refusal>)
      modifies this
      ensures refusal == Refused(old(Value()), id) && Value() == Accept(old(Value()), id)
    {
      if closed {
        return Some(TransportClosed);
      }
      if id in inFlightRequestIds {
        return Some(DuplicateId);
      }
      inFlightRequestIds := inFlightRequestIds + {id};
      activeRequestWorkers := activeRequestWorkers + 1;
      return None;
    }

    /** `finish_request_worker`. */
    method FinishRequestWorker(id: Id, failed: bool, timedOut: bool)
      modifies this
      ensures Value() == Finish(old(Value()), id, failed, timedOut)
    {
      inFlightRequestIds := inFlightRequestIds - {id};
      if activeRequestWorkers > 0 {
        activeRequestWorkers := activeRequestWorkers - 1;
      }
      completedRequestWorkers := completedRequestWorkers + 1;
      if failed {
        failedRequestWorkers := failedRequestWorkers + 1;
      }
      if timedOut {
        timedOutRequestWorkers := timedOutRequestWorkers + 1;
      }
    }

    /** `forget_request_worker`. */
    method ForgetRequestWorker(id: Id)
      modifies this
      ensures Value() == Forget(old(Value()), id)
    {
      inFlightRequestIds := inFlightRequestIds - {id};
      if activeRequestWorkers > 0 {
        activeRequestWorkers := activeRequestWorkers - 1;
      }
    }
  }

  // ------------------------------------------------------- the machine

  datatype Stage =
    | Unstarted                   // accepted, but its thread could not be started: about to be forgotten
    | Sending                     // its thread is sending the request
    | Counted                     // counted out, about to enqueue the answer
    | Over(enqueued: bool)        // through, with or without having enqueued
    | Forgotten

  datatype Worker = Worker(id: Id, stage: Stage)

  /** `accepted` and `forgotten` count what the diagnostics leave out; `queue` lists the workers whose answer was enqueued. */
  datatype State = State(
    counters: Counters, workers: seq<Worker>, accepted: nat, forgotten: nat, queue: seq<nat>)

  const INITIAL := State(FRESH, [], 0, 0, [])

  datatype Event =
    | Start(id: Id, started: bool)
    | Forgot(w: nat)
    | Done(w: nat, failed: bool, timedOut: bool)
    | Enqueue(w: nat)
    | Close

  predicate Enabled(s: State, e: Event) {
    match e
    case Start(_, _) => true
    case Forgot(w) => w < |s.workers| && s.workers[w].stage == Unstarted
    case Done(w, failed, timedOut) => w < |s.workers| && s.workers[w].stage == Sending && (timedOut ==> failed)
    case Enqueue(w) => w < |s.workers| && s.workers[w].stage == Counted
    case Close => true
  }

  function To(s: State, w: nat, stage: Stage): State
    requires w < |s.workers|
  {
    s.(workers := s.workers[w := Worker(s.workers[w].id, stage)])
  }

  function Apply(s: State, e: Event): State
    requires Enabled(s, e)
  {
    match e
    case Start(id, started) =>
      if Refused(s.counters, id).Some? then s
      else s.(counters := Accept(s.counters, id), accepted := s.accepted + 1,
              workers := s.workers + [Worker(id, if started then Sending else Unstarted)])
    case Forgot(w) =>
      To(s, w, Forgotten).(counters := Forget(s.counters, s.workers[w].id), forgotten := s.forgotten + 1)
    case Done(w, failed, timedOut) => To(s, w, Counted).(counters := Finish(s.counters, s.workers[w].id, failed, timedOut))
    case Enqueue(w) =>
      To(s, w, Over(!s.counters.closed)).(queue := if s.counters.closed then s.queue else s.queue + [w])
    case Close => s.(counters := s.counters.(closed := true))
  }

  ghost predicate Legal(s: State, events: seq<Event>)
    decreases |events|
  {
    events == [] || (Enabled(s, events[0]) && Legal(Apply(s, events[0]), events[1..]))
  }

  function Run(s: State, events: seq<Event>): State
    requires Legal(s, events)
    decreases |events|
  {
    if events == [] then s else Run(Apply(s, events[0]), events[1..])
  }

  predicate InFlight(w: Worker) { w.stage == Unstarted || w.stage == Sending }

  /** The ids in flight are those of the workers in flight, which do not share them. */
  predicate IdsInv(s: State) {
    && (forall w :: 0 <= w < |s.workers| && InFlight(s.workers[w]) ==> s.workers[w].id in s.counters.inFlight)
    && (forall v, w :: 0 <= v < w < |s.workers| && InFlight(s.workers[v]) && InFlight(s.workers[w]) ==>
          s.workers[v].id != s.workers[w].id)
    && (forall id :: id in s.counters.inFlight ==> Carried(s, id))
  }

  predicate Carried(s: State, id: Id) {
    exists w :: 0 <= w < |s.workers| && InFlight(s.workers[w]) && s.workers[w].id == id
  }

  predicate CountInv(s: State) {
    && s.counters.active == |s.counters.inFlight|
    && s.accepted == s.counters.active + s.counters.completed + s.forgotten
    && s.counters.timedOut <= s.counters.failed <= s.counters.completed
  }

  /** The queue holds exactly the workers that enqueued, each once; the others came too late. */
  predicate QueueInv(s: State) {
    && NoDup(s.queue)
    && (forall i :: 0 <= i < |s.queue| ==> s.queue[i] < |s.workers| && s.workers[s.queue[i]].stage == Over(true))
    && (forall w :: 0 <= w < |s.workers| && s.workers[w].stage == Over(true) ==> w in s.queue)
    && (forall w :: 0 <= w < |s.workers| && s.workers[w].stage == Over(false) ==> s.counters.closed)
  }

  lemma IdsKept(s: State, e: Event)
    requires IdsInv(s) && Enabled(s, e)
    ensures IdsInv(Apply(s, e))
  {
    var t := Apply(s, e);
    forall id | id in t.counters.inFlight ensures Carried(t, id) { CarriedKept(s, e, id); }
  }

  lemma CarriedKept(s: State, e: Event, id: Id)
    requires IdsInv(s) && Enabled(s, e) && id in Apply(s, e).counters.inFlight
    ensures Carried(Apply(s, e), id)
  {
    var t := Apply(s, e);
    if id in s.counters.inFlight {
      assert Carried(s, id);
      var w :| 0 <= w < |s.workers| && InFlight(s.workers[w]) && s.workers[w].id == id;
      assert t.workers[w] == s.workers[w];
    } else {
      assert t.workers[|s.workers|].id == id;
    }
  }

  lemma CountKept(s: State, e: Event)
    requires IdsInv(s) && CountInv(s) && Enabled(s, e)
    ensures CountInv(Apply(s, e))
  {
    if e.Forgot? || e.Done? {
      var id := s.workers[e.w].id;
      assert s.counters.inFlight == s.counters.inFlight - {id} + {id};
    }
  }

  lemma QueueKept(s: State, e: Event)
    requires QueueInv(s) && Enabled(s, e)
    ensures QueueInv(Apply(s, e))
  {
    if e.Enqueue? && !s.counters.closed { assert Apply(s, e).queue[|s.queue|] == e.w; }
  }

  predicate Inv(s: State) { IdsInv(s) && CountInv(s) }

  lemma {:induction false} RunKeepsInv(s: State, events: seq<Event>)
    requires Inv(s) && Legal(s, events)
    ensures Inv(Run(s, events))
    decreases |events|
  {
    if events != [] {
      IdsKept(s, events[0]);
      CountKept(s, events[0]);
      RunKeepsInv(Apply(s, events[0]), events[1..]);
    }
  }

  lemma InvFromStart(start: State, events: seq<Event>)
    requires start == INITIAL && Legal(start, events)
    ensures Inv(Run(start, events))
  {
    RunKeepsInv(start, events);
  }

  lemma QueueFromStart(start: State, events: seq<Event>)
    requires start == INITIAL && Legal(start, events)
    ensures QueueInv(Run(start, events))
  {
    RunKeepsQueue(start, events);
  }

  // --------------------------------------------------------------- theorems

  /** In every reachable state the counters agree with each other and with the ids in flight. */
  lemma WorkersAreConserved(events: seq<Event>)
    requires Legal(INITIAL, events)
    ensures Inv(Run(INITIAL, events))
  {
    InvFromStart(INITIAL, events);
  }

  lemma {:induction false} RunKeepsQueue(s: State, events: seq<Event>)
    requires QueueInv(s) && Legal(s, events)
    ensures QueueInv(Run(s, events))
    decreases |events|
  {
    if events != [] {
      QueueKept(s, events[0]);
      RunKeepsQueue(Apply(s, events[0]), events[1..]);
    }
  }

  /** A worker that is through has enqueued exactly one message, unless the transport was closed. */
  lemma OneMessagePerWorker(events: seq<Event>, w: nat)
    requires Legal(INITIAL, events)
    requires var s := Run(INITIAL, events); w < |s.workers| && s.workers[w].stage.Over?
    ensures var s := Run(INITIAL, events);
      NoDup(s.queue) && (w in s.queue <==> s.workers[w].stage.enqueued) && (!s.counters.closed ==> w in s.queue)
  {
    QueueFromStart(INITIAL, events);
  }

  /** How many workers were done, failed, timed out and forgotten in a run. */
  datatype Totals = Totals(done: nat, failed: nat, timedOut: nat, forgotten: nat)

  function TotalsOf(events: seq<Event>): Totals {
    if events == [] then Totals(0, 0, 0, 0)
    else
      var rest := TotalsOf(events[1..]);
      match events[0]
      case Done(_, failed, timedOut) =>
        Totals(rest.done + 1, rest.failed + (if failed then 1 else 0), rest.timedOut + (if timedOut then 1 else 0), rest.forgotten)
      case Forgot(_) => rest.(forgotten := rest.forgotten + 1)
      case _ => rest
  }

  /** The counters count the events. */
  lemma {:induction false} CountersCountTheEvents(s: State, events: seq<Event>)
    requires Legal(s, events)
    ensures var t, totals := Run(s, events), TotalsOf(events);
      && t.counters.completed == s.counters.completed + totals.done
      && t.counters.failed == s.counters.failed + totals.failed
      && t.counters.timedOut == s.counters.timedOut + totals.timedOut
      && t.forgotten == s.forgotten + totals.forgotten
    decreases |events|
  {
    if events != [] { CountersCountTheEvents(Apply(s, events[0]), events[1..]); }
  }

  lemma {:induction false} ClosedByClose(s: State, events: seq<Event>)
    requires Legal(s, events)
    ensures Run(s, events).counters.closed <==> s.counters.closed || Close in events
    decreases |events|
  {
    if events != [] { ClosedByClose(Apply(s, events[0]), events[1..]); }
  }

  /** What a new request meets: the answer to it, and the workers after it. */
  predicate Meets(s: State, id: Id, started: bool, closed: bool) {
    && Refused(s.counters, id) == (if closed then Some(TransportClosed) else if Carried(s, id) then Some(DuplicateId) else None)
    && Apply(s, Start(id, started)).workers
         == if !closed && !Carried(s, id) then s.workers + [Worker(id, if started then Sending else Unstarted)] else s.workers
  }

  lemma CarriedFromStart(start: State, events: seq<Event>, id: Id)
    requires start == INITIAL && Legal(start, events)
    ensures Carried(Run(start, events), id) <==> id in Run(start, events).counters.inFlight
  {
    InvFromStart(start, events);
  }

  lemma ClosedFromStart(start: State, events: seq<Event>)
    requires start == INITIAL && Legal(start, events)
    ensures Run(start, events).counters.closed <==> Close in events
  {
    ClosedByClose(start, events);
  }

  /** A request is refused if the transport was closed, or else if a worker in flight has its
      id; otherwise it gets a worker of its own. */
  lemma StartAcceptedIff(events: seq<Event>, id: Id, started: bool)
    requires Legal(INITIAL, events)
    ensures Meets(Run(INITIAL, events), id, started, Close in events)
  {
    CarriedFromStart(INITIAL, events, id);
    ClosedFromStart(INITIAL, events);
  }

  // ------------------------------------------------------- the in-place reap

  /** A started thread and its done flag, as loaded; `done` may be missing. */
  datatype Thread = Thread(handle: nat, done: Option<bool>)

  predicate IsDone(t: Thread) { t.done == Some(true) }

  function Unfinished(threads: seq<Thread>): seq<Thread> {
    if threads == [] then []
    else
      var last := threads[|threads| - 1];
      Unfinished(threads[..|threads| - 1]) + if IsDone(last) then [] else [last]
  }

  function Completed(threads: seq<Thread>): seq<nat> {
    if threads == [] then []
    else
      var last := threads[|threads| - 1];
      Completed(threads[..|threads| - 1]) + if IsDone(last) then [last.handle] else []
  }

  lemma OneMore(threads: seq<Thread>, t: Thread)
    ensures Unfinished(threads + [t]) == Unfinished(threads) + if IsDone(t) then [] else [t]
    ensures Completed(threads + [t]) == Completed(threads) + if IsDone(t) then [t.handle] else []
  {
    assert (threads + [t])[..|threads|] == threads;
  }

  /**
   * `reap_completed_request_workers_locked`: compacts the workers in place. The first
   * `kept` slots hold the unfinished workers in order; the rest is erased by the caller.
   */
  method ReapCompletedRequestWorkers(threads: array<Thread>) returns (kept: nat, completed: seq<nat>)
    modifies threads
    ensures kept <= threads.Length
    ensures threads[..kept] == Unfinished(old(threads[..]))
    ensures completed == Completed(old(threads[..]))
  {
    kept, completed := 0, [];
    ghost var all := threads[..];
    for input := 0 to threads.Length
      invariant kept <= input
      invariant threads[..kept] == Unfinished(all[..input])
      invariant forall i :: input <= i < threads.Length ==> threads[i] == all[i]
      invariant completed == Completed(all[..input])
    {
      OneMore(all[..input], all[input]);
      SplitLast(all[..input + 1], input);
      assert all[..input + 1][..input] == all[..input];
      if IsDone(threads[input]) {
        completed := completed + [threads[input].handle];
      } else {
        if kept != input {
          threads[kept] := threads[input];
        }
        kept := kept + 1;
        assert threads[..kept] == threads[..kept - 1] + [all[input]];
      }
    }
    assert all[..threads.Length] == all;
  }

  /** The reap loses no worker and invents none: an unfinished one is kept as often as it was there. */
  lemma {:induction false} ReapKeepsTheUnfinished(threads: seq<Thread>, t: Thread)
    ensures multiset(Unfinished(threads))[t] == if IsDone(t) then 0 else multiset(threads)[t]
  {
    if threads != [] {
      var n := |threads| - 1;
      var before, last := threads[..n], threads[n];
      ReapKeepsTheUnfinished(before, t);
      SplitLast(threads, n);
      CountJoin(before, [last], t);
      CountJoin(Unfinished(before), if IsDone(last) then [] else [last], t);
    }
  }

  function Handles(threads: seq<Thread>): seq<nat> {
    if threads == [] then [] else Handles(threads[..|threads| - 1]) + [threads[|threads| - 1].handle]
  }

  lemma HandlesOneMore(threads: seq<Thread>, t: Thread)
    ensures Handles(threads + [t]) == Handles(threads) + [t.handle]
  {
    assert (threads + [t])[..|threads|] == threads;
  }

  lemma KeptHandles(threads: seq<Thread>, n: nat)
    requires |threads| == n + 1
    ensures Handles(Unfinished(threads))
         == Handles(Unfinished(threads[..n])) + if IsDone(threads[n]) then [] else [threads[n].handle]
  {
    var rest, last := Unfinished(threads[..n]), threads[n];
    if IsDone(last) {
      assert Unfinished(threads) == rest;
    } else {
      assert Unfinished(threads) == rest + [last];
      HandlesOneMore(rest, last);
    }
  }

  /** Every thread is kept or handed out, as often as it was there: none is both, and none is lost. */
  lemma {:induction false} ReapPartitions(threads: seq<Thread>, handle: nat)
    ensures multiset(Handles(Unfinished(threads)))[handle] + multiset(Completed(threads))[handle]
         == multiset(Handles(threads))[handle]
  {
    if threads != [] {
      var n := |threads| - 1;
      var before, one := threads[..n], [threads[n].handle];
      ReapPartitions(before, handle);
      KeptHandles(threads, n);
      CountJoin(Handles(before), one, handle);
      CountJoin(Handles(Unfinished(before)), if IsDone(threads[n]) then [] else one, handle);
      CountJoin(Completed(before), if IsDone(threads[n]) then one else [], handle);
    }
  }

  /** Reaping again right away finds nothing more to do. */
  lemma {:induction false} ReapIsStable(threads: seq<Thread>)
    ensures Unfinished(Unfinished(threads)) == Unfinished(threads) && Completed(Unfinished(threads)) == []
  {
    if threads != [] {
      var n := |threads| - 1;
      var rest, last := Unfinished(threads[..n]), threads[n];
      ReapIsStable(threads[..n]);
      OneMore(rest, last);
      assert Unfinished(threads) == if IsDone(last) then rest else rest + [last];
    }
  }
}
