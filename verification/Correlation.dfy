/**
 * `Peer<RoleClient>::send_native_request` with no receive loop running: it sends
 * a request and then reads whatever arrives until the response to it is there,
 * buffering other responses and answering the server's own requests on the way.
 * How each send goes, and what arrives, is given; what arrives ends with a close.
 */
module Correlation {
  import opened Common
  import opened RequestKey
  import JsonRpc

  datatype Response = Response(id: Option<Id>, payload: nat)

  /** What `receive` returns. A notification carries how its handler ends. */
  datatype Inbound =
    | Broken(error: Error)
    | Closed
    | ServerRequest(id: Id)
    | Notification(failed: Option<Error>)
    | Answer(response: Response)

  datatype Outbound = Call(id: Id) | Reply(id: Id)

  type Buffer = map<string, Response>

  const CLOSED := Error(INVALID_REQUEST, "client peer transport closed before response", "")
  const NO_ID := Error(INVALID_REQUEST, "client peer received a response without an id", "")

  // ------------------------------------------- what one message amounts to

  /** The loop goes on after this message, `unsent` being how a reply to it went. */
  predicate GoesOn(m: Inbound, id: Id, unsent: Option<Error>) {
    match m
    case ServerRequest(_) => unsent.None?
    case Notification(failed) => failed.None?
    case Answer(r) => r.id.Some? && r.id.value != id
    case _ => false
  }

  /** The result when the loop stops at this message. */
  function StopAt(m: Inbound, id: Id, unsent: Option<Error>): Result<Response, Error> {
    match m
    case Broken(error) => Err(error)
    case Closed => Err(CLOSED)
    case Notification(failed) => if failed.Some? then Err(failed.value) else Err(CLOSED)
    case ServerRequest(_) => if unsent.Some? then Err(unsent.value) else Err(CLOSED)
    case Answer(r) => if r.id == Some(id) then Ok(r) else Err(NO_ID)
  }

  function ReplyTo(m: Inbound): seq<Outbound> { if m.ServerRequest? then [Reply(m.id)] else [] }

  /** The replies owed for the first `n` messages, in order. */
  function Replies(messages: seq<Inbound>, n: nat): seq<Outbound>
    requires n <= |messages|
  {
    if n == 0 then [] else Replies(messages, n - 1) + ReplyTo(messages[n - 1])
  }

  function StoredOne(buffer: Buffer, m: Inbound): Buffer {
    if m.Answer? && m.response.id.Some? then buffer[Key(m.response.id.value) := m.response] else buffer
  }

  /** The buffer once the first `n` messages have gone by. */
  function Stored(buffer: Buffer, messages: seq<Inbound>, n: nat): Buffer
    requires n <= |messages|
  {
    if n == 0 then buffer else StoredOne(Stored(buffer, messages, n - 1), messages[n - 1])
  }

  /** Every response is buffered under the key of its own id. */
  predicate Keyed(buffer: Buffer) {
    forall k :: k in buffer ==> buffer[k].id.Some? && Key(buffer[k].id.value) == k
  }

  /** Behind the last message there is the close. */
  function MessageAt(messages: seq<Inbound>, k: nat): Inbound { if k < |messages| then messages[k] else Closed }

  /** How the reply to message `i` goes, the first of the replies being send number `base`. */
  function ReplySend(sending: nat -> Option<Error>, base: nat, messages: seq<Inbound>, i: nat): Option<Error>
    requires i <= |messages|
  {
    sending(base + |Replies(messages, i)|)
  }

  /** The loop goes by the first `n` messages. */
  predicate AllGoBy(sending: nat -> Option<Error>, base: nat, id: Id, messages: seq<Inbound>, n: nat) {
    n <= |messages| && forall i :: 0 <= i < n ==> GoesOn(messages[i], id, ReplySend(sending, base, messages, i))
  }

  /** The loop goes by the first `n` messages, and the next gives the result. */
  predicate Stops(sending: nat -> Option<Error>, base: nat, id: Id, messages: seq<Inbound>, n: nat,
                  result: Result<Response, Error>) {
    && AllGoBy(sending, base, id, messages, n)
    && !GoesOn(MessageAt(messages, n), id, ReplySend(sending, base, messages, n))
    && result == StopAt(MessageAt(messages, n), id, ReplySend(sending, base, messages, n))
  }

  /** The loop has gone by the first `n` messages, answering and buffering as it should. */
  predicate Reading(sending: nat -> Option<Error>, id: Id, messages: seq<Inbound>, n: nat,
                    outbox0: seq<Outbound>, buffer0: Buffer, outbox: seq<Outbound>, buffer: Buffer) {
    && AllGoBy(sending, |outbox0|, id, messages, n)
    && outbox == outbox0 + Replies(messages, n) && buffer == Stored(buffer0, messages, n)
  }

  lemma ReadingGoesOn(sending: nat -> Option<Error>, id: Id, messages: seq<Inbound>, n: nat,
                      outbox0: seq<Outbound>, buffer0: Buffer, outbox: seq<Outbound>, buffer: Buffer)
    requires Reading(sending, id, messages, n, outbox0, buffer0, outbox, buffer)
    requires GoesOn(MessageAt(messages, n), id, sending(|outbox|))
    ensures n < |messages|
    ensures Reading(sending, id, messages, n + 1, outbox0, buffer0, outbox + ReplyTo(messages[n]), StoredOne(buffer, messages[n]))
  {
    MoreGoBy(sending, |outbox0|, id, messages, n);
    StoredMore(buffer0, messages, n);
  }

  lemma StoredMore(buffer0: Buffer, messages: seq<Inbound>, n: nat)
    requires n < |messages|
    ensures Stored(buffer0, messages, n + 1) == StoredOne(Stored(buffer0, messages, n), messages[n])
  {
  }

  lemma MoreGoBy(sending: nat -> Option<Error>, base: nat, id: Id, messages: seq<Inbound>, n: nat)
    requires AllGoBy(sending, base, id, messages, n) && n < |messages|
    requires GoesOn(messages[n], id, ReplySend(sending, base, messages, n))
    ensures AllGoBy(sending, base, id, messages, n + 1)
  {
  }

  class NativePeer {
    /** How the n-th send goes. */
    const sending: nat -> Option<Error>
    var outbox: seq<Outbound>
    var inbound: seq<Inbound>
    var responses: Buffer

    constructor (sending: nat -> Option<Error>, inbound: seq<Inbound>)
      ensures this.sending == sending && this.inbound == inbound && outbox == [] && responses == map[]
    {
      this.sending, this.inbound := sending, inbound;
      outbox, responses := [], map[];
    }

    method Send(m: Outbound) returns (failed: Option<Error>)
      modifies this`outbox
      ensures outbox == old(outbox) + [m] && failed == sending(|old(outbox)|)
    {
      failed := sending(|outbox|);
      outbox := outbox + [m];
    }

    method Receive() returns (m: Inbound)
      modifies this`inbound
      ensures old(inbound) == [] ==> m == Closed && inbound == []
      ensures old(inbound) != [] ==> m == old(inbound)[0] && inbound == old(inbound)[1..]
    {
      if inbound == [] {
        return Closed;
      }
      m, inbound := inbound[0], inbound[1..];
    }

    /** `store_native_response`. */
    method Store(r: Response) returns (failed: Option<Error>)
      modifies this`responses
      ensures failed == if r.id.None? then Some(NO_ID) else None
      ensures responses == if r.id.None? then old(responses) else old(responses)[Key(r.id.value) := r]
    {
      if r.id.None? {
        return Some(NO_ID);
      }
      responses := responses[Key(r.id.value) := r];
      return None;
    }

    /** `take_native_response`: only a response with this very id, and all others stay. */
    method Take(id: Id) returns (r: Option<Response>)
      requires Keyed(responses)
      modifies this`responses
      ensures Keyed(responses)
      ensures r.Some? ==> r.value.id == Some(id) && Key(id) in old(responses) && r.value == old(responses)[Key(id)]
      ensures r.None? ==> Key(id) !in old(responses) && forall k :: k in responses ==> responses[k].id != Some(id)
      ensures responses == old(responses) - {Key(id)}
    {
      if Key(id) !in responses {
        assert responses - {Key(id)} == responses;
        return None;
      }
      r := Some(responses[Key(id)]);
      KeyInjective(r.value.id.value, id);
      responses := responses - {Key(id)};
    }

    /** What the loop does about one message: nothing is left to do but go on, or here is the result. */
    method HandleOne(id: Id, m: Inbound) returns (done: Option<Result<Response, Error>>)
      modifies this`outbox, this`responses
      ensures done.None? <==> GoesOn(m, id, sending(|old(outbox)|))
      ensures done.Some? ==> done.value == StopAt(m, id, sending(|old(outbox)|))
      ensures outbox == old(outbox) + ReplyTo(m)
      ensures responses == if done.Some? then old(responses) else StoredOne(old(responses), m)
    {
      match m {
        case Broken(error) =>
          return Some(Err(error));
        case Closed =>
          return Some(Err(CLOSED));
        case Answer(response) =>
          if response.id == Some(id) {
            return Some(Ok(response));
          }
          var failed := Store(response);
          return if failed.Some? then Some(Err(failed.value)) else None;
        case Notification(failed) =>
          return if failed.Some? then Some(Err(failed.value)) else None;
        case ServerRequest(from) =>
          var failed := Send(Reply(from));
          return if failed.Some? then Some(Err(failed.value)) else None;
      }
    }

    /** The reading loop: it goes by `n` messages and stops at the next one. */
    method ReadUntilAnswered(id: Id) returns (result: Result<Response, Error>, ghost n: nat)
      modifies this`outbox, this`inbound, this`responses
      ensures Stops(sending, |old(outbox)|, id, old(inbound), n, result)
      ensures inbound == if n < |old(inbound)| then old(inbound)[n + 1..] else []
      ensures outbox == old(outbox) + Replies(old(inbound), n) + ReplyTo(MessageAt(old(inbound), n))
      ensures responses == Stored(old(responses), old(inbound), n)
    {
      n := 0;
      ghost var messages := inbound;
      while true
        invariant Reading(sending, id, messages, n, old(outbox), old(responses), outbox, responses)
        invariant inbound == messages[n..]
        decreases |inbound|
      {
        ghost var sent, buffer := outbox, responses;
        var m := Receive();
        assert m == MessageAt(messages, n);
        var done := HandleOne(id, m);
        if done.Some? {
          return done.value, n;
        }
        ReadingGoesOn(sending, id, messages, n, old(outbox), old(responses), sent, buffer);
        n := n + 1;
      }
    }

    /** `send_native_request`; `n` is the number of messages it goes by, if it comes to reading at all. */
    method SendNativeRequest(id: Id) returns (result: Result<Response, Error>, ghost n: nat)
      requires Keyed(responses)
      modifies this`outbox, this`inbound, this`responses
      ensures Keyed(responses)
      ensures result.Ok? ==> result.value.id == Some(id)
      ensures if sending(|old(outbox)|).Some? then
          && result == Err(sending(|old(outbox)|).value) && outbox == old(outbox) + [Call(id)]
          && responses == old(responses) && inbound == old(inbound)
        else if Key(id) in old(responses) then
          && result == Ok(old(responses)[Key(id)]) && outbox == old(outbox) + [Call(id)]
          && responses == old(responses) - {Key(id)} && inbound == old(inbound)
        else
          && Stops(sending, |old(outbox)| + 1, id, old(inbound), n, result)
          && inbound == (if n < |old(inbound)| then old(inbound)[n + 1..] else [])
          && outbox == old(outbox) + [Call(id)] + Replies(old(inbound), n) + ReplyTo(MessageAt(old(inbound), n))
          && responses == Stored(old(responses), old(inbound), n)
    {
      n := 0;
      var failed := Send(Call(id));
      if failed.Some? {
        return Err(failed.value), n;
      }
      var buffered := Take(id);
      if buffered.Some? {
        return Ok(buffered.value), n;
      }
      assert old(responses) - {Key(id)} == old(responses);
      result, n := ReadUntilAnswered(id);
      StoredKeyed(old(responses), old(inbound), n);
    }
  }

  lemma {:induction false} StoredKeyed(buffer: Buffer, messages: seq<Inbound>, n: nat)
    requires Keyed(buffer) && n <= |messages|
    ensures Keyed(Stored(buffer, messages, n))
  {
    if n > 0 { StoredKeyed(buffer, messages, n - 1); }
  }

  // --------------------------------------------------------------- theorems

  /** The message neither answers the call nor fails anything: another's response, a
      notification whose handler succeeds, or a server request whose reply is sent. */
  predicate Innocent(m: Inbound, id: Id, unsent: Option<Error>) {
    || (m.Answer? && m.response.id.Some? && m.response.id != Some(id))
    || (m.Notification? && m.failed == None)
    || (m.ServerRequest? && unsent == None)
  }

  /** What a message that is not innocent makes of the call. */
  predicate Decides(m: Inbound, id: Id, unsent: Option<Error>, result: Result<Response, Error>) {
    match m
    case Answer(r) =>
      result == if r.id == Some(id) then Ok(r) else Err(Error(-32600, "client peer received a response without an id", ""))
    case Broken(error) => result == Err(error)
    case Notification(failed) => failed.Some? && result == Err(failed.value)
    case ServerRequest(_) => unsent.Some? && result == Err(unsent.value)
    case Closed => result == Err(Error(-32600, "client peer transport closed before response", ""))
  }

  lemma InnocentGoesOn(m: Inbound, id: Id, unsent: Option<Error>)
    ensures Innocent(m, id, unsent) <==> GoesOn(m, id, unsent)
    ensures !Innocent(m, id, unsent) ==> Decides(m, id, unsent, StopAt(m, id, unsent))
  {
  }

  /**
   * The call ends at the first message that is not innocent. If that is a response with
   * its own id it returns that response; every other one gives an error of its own, and
   * so does the close behind the last message.
   */
  lemma FirstAnswerDecides(sending: nat -> Option<Error>, base: nat, id: Id, messages: seq<Inbound>, n: nat,
                           result: Result<Response, Error>, k: nat)
    requires Stops(sending, base, id, messages, n, result)
    requires k <= |messages| && forall i :: 0 <= i < k ==> Innocent(messages[i], id, ReplySend(sending, base, messages, i))
    requires !Innocent(MessageAt(messages, k), id, ReplySend(sending, base, messages, k))
    ensures n == k && Decides(MessageAt(messages, k), id, ReplySend(sending, base, messages, k), result)
  {
    InnocentGoesOn(MessageAt(messages, n), id, ReplySend(sending, base, messages, n));
    InnocentGoesOn(MessageAt(messages, k), id, ReplySend(sending, base, messages, k));
  }

  /** If the first response with its own id comes after innocent messages only, the call returns it. */
  lemma OwnResponseIsReturned(sending: nat -> Option<Error>, base: nat, id: Id, messages: seq<Inbound>, n: nat,
                              result: Result<Response, Error>, k: nat)
    requires Stops(sending, base, id, messages, n, result)
    requires k < |messages| && Bears(messages[k], id)
    requires forall i :: 0 <= i < k ==> Innocent(messages[i], id, ReplySend(sending, base, messages, i))
    ensures n == k && result == Ok(messages[k].response)
  {
    FirstAnswerDecides(sending, base, id, messages, n, result, k);
  }

  predicate Bears(m: Inbound, id: Id) { m.Answer? && m.response.id == Some(id) }

  /** What one message does to the slot of an id: other ids have other keys. */
  lemma StoredInSlot(buffer: Buffer, m: Inbound, id: Id)
    ensures var after := StoredOne(buffer, m);
      if Bears(m, id) then Key(id) in after && after[Key(id)] == m.response else SameSlot(buffer, after, id)
  {
    if m.Answer? && m.response.id.Some? && Key(m.response.id.value) == Key(id) { KeyInjective(m.response.id.value, id); }
  }

  predicate SameSlot(before: Buffer, after: Buffer, id: Id) {
    (Key(id) in after <==> Key(id) in before) && (Key(id) in before ==> after[Key(id)] == before[Key(id)])
  }

  /** The buffer holds, for each id, the last response that bore it, or what it held before if none did. */
  lemma {:induction false} LastResponseIsStored(buffer: Buffer, messages: seq<Inbound>, n: nat, id: Id, k: nat)
    requires k <= n <= |messages| && forall i :: k < i < n ==> !Bears(messages[i], id)
    requires if k < n then Bears(messages[k], id) else forall i :: 0 <= i < n ==> !Bears(messages[i], id)
    ensures var after := Stored(buffer, messages, n);
      if k < n then Key(id) in after && after[Key(id)] == messages[k].response else SameSlot(buffer, after, id)
  {
    if n > 0 {
      StoredInSlot(Stored(buffer, messages, n - 1), messages[n - 1], id);
      if k != n - 1 { LastResponseIsStored(buffer, messages, n - 1, id, if k == n then n - 1 else k); }
    }
  }

  lemma ReplyToOne(m: Inbound, id: Id)
    ensures multiset(ReplyTo(m))[Reply(id)] == multiset([m])[ServerRequest(id)]
  {
  }

  lemma CountedOneMore(replies: seq<Outbound>, before: seq<Inbound>, m: Inbound, id: Id)
    requires multiset(replies)[Reply(id)] == multiset(before)[ServerRequest(id)]
    ensures multiset(replies + ReplyTo(m))[Reply(id)] == multiset(before + [m])[ServerRequest(id)]
  {
    ReplyToOne(m, id);
    CountJoin(replies, ReplyTo(m), Reply(id));
    CountJoin(before, [m], ServerRequest(id));
  }

  /** Each server request that went by has been replied to exactly as often as it came. */
  lemma {:induction false} OneReplyPerRequest(messages: seq<Inbound>, n: nat, id: Id)
    requires n <= |messages|
    ensures multiset(Replies(messages, n))[Reply(id)] == multiset(messages[..n])[ServerRequest(id)]
  {
    if n > 0 {
      OneReplyPerRequest(messages, n - 1, id);
      CountedOneMore(Replies(messages, n - 1), messages[..n - 1], messages[n - 1], id);
      TakeOneMore(messages, n - 1);
    }
  }

  /** The integer 1 and the string "1" do not share a slot. */
  lemma NumberAndTextApart(n: JsonRpc.int64, t: string)
    ensures Key(JsonRpc.Num(n)) != Key(JsonRpc.Text(t))
  {
    if Key(JsonRpc.Num(n)) == Key(JsonRpc.Text(t)) { KeyInjective(JsonRpc.Num(n), JsonRpc.Text(t)); }
  }
}
