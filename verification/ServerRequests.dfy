/**
 * The server-to-client requests that wait in a native client transport. A request
 * is admitted into `pending_server_requests_` under the transport's mutex; a reply
 * with its id, or `close()`, takes it out under that mutex and writes its response
 * slot later, under the request's own mutex. Requests are numbered as they arrive.
 */
module ServerRequests {
  import opened Common

  type Id = nat
  type Request = nat

  /** What is written into a response slot: the reply with some id, or the closing error. */
  datatype Writing = Reply(id: Id) | Closing

  datatype Closed = Open | InProgress | Finished

  /** `ids` names the admitted requests, `held` the ones taken out and not written yet, `slots` what was written. */
  datatype State = State(
    phase: Closed, pending: map<Id, Request>, ids: map<Request, Id>, held: map<Request, Writing>,
    slots: map<Request, seq<Writing>>)

  const INITIAL := State(Open, map[], map[], map[], map[])

  datatype Event =
    | Arrive(r: Request, id: Id)      // handle_server_request
    | Answer(id: Id)                  // complete_server_request, under the transport's mutex
    | Close                           // close, under the transport's mutex
    | Write(r: Request)               // whoever took the request out writes its slot
    | CloseReturns

  predicate Enabled(s: State, e: Event) {
    match e
    case Arrive(r, _) => r !in s.ids
    case Write(r) => r in s.held
    case CloseReturns => s.phase == InProgress && forall r :: r in s.held ==> s.held[r] != Closing
    case _ => true
  }

  /** The request is admitted: the transport is open and no other request has the id. */
  predicate Admits(s: State, id: Id) { s.phase == Open && id !in s.pending }

  /** All pending requests are the closer's to write. */
  function HeldByCloser(s: State): map<Request, Writing> {
    s.held + map r | r in s.ids && s.ids[r] in s.pending && s.pending[s.ids[r]] == r :: Closing
  }

  function Apply(s: State, e: Event): State
    requires Enabled(s, e)
  {
    match e
    case Arrive(r, id) =>
      if Admits(s, id) then s.(pending := s.pending[id := r], ids := s.ids[r := id], slots := s.slots[r := []]) else s
    case Answer(id) =>
      if id in s.pending then s.(pending := s.pending - {id}, held := s.held[s.pending[id] := Reply(id)]) else s
    case Close =>
      if s.phase == Open then s.(phase := InProgress, pending := map[], held := HeldByCloser(s)) else s
    case Write(r) =>
      s.(held := s.held - {r}, slots := s.slots[r := (if r in s.slots then s.slots[r] else []) + [s.held[r]]])
    case CloseReturns => s.(phase := Finished)
  }

  ghost predicate Legal(s: State, events: seq<Event>)
    decreases |events|
  {
    events == [] || (Enabled(s, events[0]) && Legal(Apply(s, events[0]), events[1..]))
  }

  function Run(s: State, events: seq<Event>): State
    requires Legal(s, events)
    decreases |events|
  {
    if events == [] then s else Run(Apply(s, events[0]), events[1..])
  }

  // ---------------------------------------------------------- the invariant

  predicate Waits(s: State, r: Request) { r in s.ids && s.ids[r] in s.pending && s.pending[s.ids[r]] == r }

  /** The writing that is right for a request: the reply that bears its id, or the closing error. */
  predicate Fits(s: State, r: Request, w: Writing) {
    r in s.ids && (w == Reply(s.ids[r]) || (w == Closing && s.phase != Open))
  }

  /** The map of pending requests is what it is indexed by. */
  predicate PendingInv(s: State) {
    && (forall id :: id in s.pending ==> s.pending[id] in s.ids && s.ids[s.pending[id]] == id)
    && (s.phase != Open ==> s.pending == map[])
  }

  /** An admitted request waits, or is held by the one who will write it, or has been written once. */
  predicate SlotInv(s: State, r: Request) {
    if r in s.ids then
      && r in s.slots && |s.slots[r]| <= 1
      && (Waits(s, r) ==> r !in s.held && s.slots[r] == [])
      && (r in s.held ==> Fits(s, r, s.held[r]) && s.slots[r] == [])
      && (s.slots[r] != [] ==> Fits(s, r, s.slots[r][0]))
      && (Waits(s, r) || r in s.held || s.slots[r] != [])
    else r !in s.held && r !in s.slots
  }

  predicate FinishedInv(s: State) { s.phase == Finished ==> forall r :: r in s.held ==> s.held[r] != Closing }

  lemma PendingKept(s: State, e: Event)
    requires PendingInv(s) && Enabled(s, e)
    ensures PendingInv(Apply(s, e))
  {
  }

  lemma SlotKept(s: State, e: Event, r: Request)
    requires PendingInv(s) && SlotInv(s, r) && Enabled(s, e)
    ensures SlotInv(Apply(s, e), r)
  {
  }

  lemma FinishedKept(s: State, e: Event)
    requires FinishedInv(s) && PendingInv(s) && Enabled(s, e)
    ensures FinishedInv(Apply(s, e))
  {
  }

  lemma {:induction false} RunKeepsInv(s: State, events: seq<Event>, r: Request)
    requires PendingInv(s) && FinishedInv(s) && SlotInv(s, r) && Legal(s, events)
    ensures var t := Run(s, events); PendingInv(t) && FinishedInv(t) && SlotInv(t, r)
    decreases |events|
  {
    if events != [] {
      PendingKept(s, events[0]);
      SlotKept(s, events[0], r);
      FinishedKept(s, events[0]);
      RunKeepsInv(Apply(s, events[0]), events[1..], r);
    }
  }

  // --------------------------------------------------------------- theorems

  /** A slot is written at most once, by the reply that bears the request's id or by the close, never by both. */
  lemma SlotWrittenAtMostOnce(events: seq<Event>, r: Request)
    requires Legal(INITIAL, events) && r in Run(INITIAL, events).ids
    ensures var s := Run(INITIAL, events);
      r in s.slots && (s.slots[r] == [] || s.slots[r] == [Reply(s.ids[r])] || (s.slots[r] == [Closing] && s.phase != Open))
  {
    RunKeepsInv(INITIAL, events, r);
  }

  /** Once the close has returned nothing is pending, and a request without an answer is in the hands of a replier. */
  lemma CloseSettlesAll(events: seq<Event>, r: Request)
    requires Legal(INITIAL, events) && Run(INITIAL, events).phase == Finished
    ensures var s := Run(INITIAL, events);
      s.pending == map[] && (r in s.ids ==> r in s.slots && (s.slots[r] != [] || (r in s.held && s.held[r] == Reply(s.ids[r]))))
  {
    RunKeepsInv(INITIAL, events, r);
  }

  /** From the moment the transport is closed no request is admitted any more. */
  lemma {:induction false} NothingAdmittedAfterClose(s: State, events: seq<Event>)
    requires s.phase != Open && Legal(s, events)
    ensures Run(s, events).ids == s.ids && Run(s, events).phase != Open
    decreases |events|
  {
    if events != [] { NothingAdmittedAfterClose(Apply(s, events[0]), events[1..]); }
  }

  lemma {:induction false} OpenUntilClose(s: State, events: seq<Event>)
    requires Legal(s, events)
    ensures Run(s, events).phase == Open <==> s.phase == Open && Close !in events
    decreases |events|
  {
    if events != [] { OpenUntilClose(Apply(s, events[0]), events[1..]); }
  }

  /** A request is admitted exactly when the transport has not been closed and no request
      that still waits has its id; it then waits under that id. */
  lemma AdmittedIff(events: seq<Event>, r: Request, id: Id)
    requires Legal(INITIAL, events) && r !in Run(INITIAL, events).ids
    ensures var s := Run(INITIAL, events);
      var t := Apply(s, Arrive(r, id));
      && (r in t.ids <==> Close !in events && forall q :: Waits(s, q) ==> s.ids[q] != id)
      && (r in t.ids ==> Waits(t, r) && t.ids[r] == id)
      && (r !in t.ids ==> t == s)
  {
    var s := Run(INITIAL, events);
    OpenUntilClose(INITIAL, events);
    RunKeepsInv(INITIAL, events, r);
    if id in s.pending { assert Waits(s, s.pending[id]); }
  }

  /** What a request gets is settled: someone holds it to write that, or has written it. */
  predicate Fated(s: State, r: Request, w: Writing) {
    && r in s.ids && r in s.slots && !Waits(s, r)
    && if r in s.held then s.held[r] == w && s.slots[r] == [] else s.slots[r] == [w]
  }

  lemma FateKept(s: State, e: Event, r: Request, w: Writing)
    requires PendingInv(s) && Fated(s, r, w) && Enabled(s, e)
    ensures Fated(Apply(s, e), r, w)
  {
  }

  lemma {:induction false} FateStays(s: State, events: seq<Event>, r: Request, w: Writing)
    requires PendingInv(s) && Fated(s, r, w) && Legal(s, events)
    ensures Fated(Run(s, events), r, w)
    decreases |events|
  {
    if events != [] {
      PendingKept(s, events[0]);
      FateKept(s, events[0], r, w);
      FateStays(Apply(s, events[0]), events[1..], r, w);
    }
  }

  /** Whoever comes first decides: a reply that finds the request waiting is what its slot
      gets, and a close that finds it waiting gives it the closing error. */
  lemma FirstToComeDecides(before: seq<Event>, e: Event, after: seq<Event>, r: Request)
    requires Legal(INITIAL, before)
    requires var s := Run(INITIAL, before);
      Waits(s, r) && (e == Answer(s.ids[r]) || e == Close) && Legal(Apply(s, e), after)
    ensures var t := Run(Apply(Run(INITIAL, before), e), after);
      Fated(t, r, if e == Close then Closing else Reply(Run(INITIAL, before).ids[r]))
  {
    var s := Run(INITIAL, before);
    RunKeepsInv(INITIAL, before, r);
    PendingKept(s, e);
    FateStays(Apply(s, e), after, r, if e == Close then Closing else Reply(s.ids[r]));
  }

  // ------------------------------------------------------------ in place

  /** `PendingServerRequest`: the slot is written where the waiting thread will look. */
  class PendingServerRequest {
    const id: Id
    var response: Option<Writing>

    constructor (id: Id)
      ensures this.id == id && response.None?
    {
      this.id, response := id, None;
    }
  }

  class PendingTable {
    var closed: bool
    var pending: map<Id, PendingServerRequest>

    /** Each request is filed under its own id and has not been answered. */
    ghost predicate Valid()
      reads this, pending.Values
    {
      && (forall id :: id in pending ==> pending[id].id == id && pending[id].response.None?)
      && (closed ==> pending == map[])
    }

    constructor ()
      ensures Valid() && !closed && pending == map[]
    {
      closed, pending := false, map[];
    }

    /** `handle_server_request` under the mutex. */
    method Admit(request: PendingServerRequest) returns (admitted: bool)
      requires Valid() && request.response.None?
      modifies this`pending
      ensures Valid()
      ensures admitted <==> !closed && request.id !in old(pending)
      ensures pending == if admitted then old(pending)[request.id := request] else old(pending)
    {
      if closed || request.id in pending {
        return false;
      }
      pending := pending[request.id := request];
      return true;
    }

    /** `complete_server_request`: takes the request out, then writes its slot. */
    method Complete(id: Id) returns (found: bool)
      requires Valid()
      modifies this`pending, pending.Values
      ensures Valid()
      ensures found <==> id in old(pending)
      ensures pending == old(pending) - {id}
      ensures found ==> old(pending)[id].response == Some(Reply(id))
      ensures forall other :: other in old(pending) && other != id ==> old(pending)[other].response.None?
    {
      if id !in pending {
        assert pending - {id} == pending;
        return false;
      }
      var request := pending[id];
      pending := pending - {id};
      request.response := Some(Reply(id));
      return true;
    }

    /** `close`: swaps the table out, then answers every request in it. */
    method Close()
      requires Valid()
      modifies this, pending.Values
      ensures Valid() && closed && pending == map[]
      ensures forall id :: id in old(pending) ==> old(pending)[id].response == Some(Closing)
    {
      if closed {
        return;
      }
      closed := true;
      var swapped := pending;
      pending := map[];
      var left := swapped.Keys;
      while left != {}
        invariant left <= swapped.Keys && closed && pending == map[]
        invariant forall id :: id in swapped && id !in left ==> swapped[id].response == Some(Closing)
        decreases |left|
      {
        var id :| id in left;
        swapped[id].response := Some(Closing);
        left := left - {id};
      }
    }
  }
}
