/**
 * The event stream from the server to the client: what the server's transport
 * writes for a message, to prime a stream and to end one, and what
 * `parse_sse_events` makes of any stream written like that.
 */
module SseStream {
  import opened Common
  import opened Sse
  import opened SseFields
  import Decimal

  datatype Chunk = Message(eventId: Option<nat>, payload: string) | Priming(retry: int) | Hint(retry: int)

  /** `std::to_string` on a signed integer. */
  function IntText(n: int): string { if n < 0 then "-" + Decimal.ToString(-n) else Decimal.ToString(n) }

  function LineOf(prefix: string, value: string): string { prefix + value + "\n" }

  function Written(chunk: Chunk): string {
    match chunk
    case Message(eventId, payload) =>
      (if eventId.Some? then LineOf("id: ", Decimal.ToString(eventId.value)) else "") + LineOf("data: ", payload) + "\n"
    case Priming(retry) => LineOf("id: ", "0") + LineOf("retry: ", IntText(retry)) + LineOf("data: ", "{}") + "\n"
    case Hint(retry) => LineOf("retry: ", IntText(retry)) + "\n"
  }

  /** `message_to_sse_event`. */
  method MessageToSseEvent(eventId: Option<nat>, payload: string) returns (event: string)
    ensures event == Written(Message(eventId, payload))
  {
    event := "";
    if eventId.Some? {
      event := event + "id: ";
      event := event + Decimal.ToString(eventId.value);
      event := event + "\n";
      assert event == LineOf("id: ", Decimal.ToString(eventId.value));
    }
    ghost var id := event;
    event := event + "data: ";
    event := event + payload;
    event := event + "\n\n";
    assert event == id + LineOf("data: ", payload) + "\n";
  }

  /** `sse_priming_event`. */
  method SsePrimingEvent(retry: int) returns (event: string)
    ensures event == Written(Priming(retry))
  {
    event := "id: 0\n";
    event := event + "retry: ";
    event := event + IntText(retry);
    event := event + "\n";
    assert event == LineOf("id: ", "0") + LineOf("retry: ", IntText(retry));
    ghost var lines := event;
    event := event + "data: {}\n\n";
    assert event == lines + LineOf("data: ", "{}") + "\n";
  }

  function Stream(chunks: seq<Chunk>): string {
    if chunks == [] then "" else Written(chunks[0]) + Stream(chunks[1..])
  }

  /** A retry that does not fit `int` is not read. */
  function RetryRead(ms: int): int { if -2147483648 <= ms <= 2147483647 then ms else -1 }

  /** The event the client gets for a chunk. */
  function Received(chunk: Chunk): Event {
    match chunk
    case Message(eventId, payload) =>
      Event("", payload, if eventId.Some? then Decimal.ToString(eventId.value) else "", -1)
    case Priming(retry) => Event("", "{}", "0", RetryRead(retry))
    case Hint(retry) => Event("", "", "", RetryRead(retry))
  }

  /** The payload stands on one line, whole. */
  predicate OneLinePayload(payload: string) { NoLf(payload) && !EndsInCr(payload) }

  predicate Fits(chunk: Chunk) { chunk.Message? ==> OneLinePayload(chunk.payload) }

  function AllReceived(chunks: seq<Chunk>): seq<Event> {
    if chunks == [] then [] else [Received(chunks[0])] + AllReceived(chunks[1..])
  }

  // --------------------------------------------------------- chunks are blocks

  function DataItem(payload: string): Item { Field("data", payload, true) }
  function IdItem(text: string): Item { Field("id", text, true) }
  function RetryItem(ms: int): Item { Field("retry", IntText(ms), true) }

  function Block(chunk: Chunk): seq<Item> {
    match chunk
    case Message(eventId, payload) =>
      if eventId.Some? then [IdItem(Decimal.ToString(eventId.value)), DataItem(payload)] else [DataItem(payload)]
    case Priming(retry) => [IdItem("0"), RetryItem(retry), DataItem("{}")]
    case Hint(retry) => [RetryItem(retry)]
  }

  lemma FieldIsWritable(name: string, value: string)
    requires name in {"data", "id", "retry"} && NoLf(value) && !EndsInCr(value)
    ensures Writable(Field(name, value, true))
  {
    var text := Text(Field(name, value, true));
    if value == "" { assert text[|text| - 1] == ' '; } else { assert text[|text| - 1] == value[|value| - 1]; }
  }

  lemma DigitsAreOneLine(s: string)
    requires Decimal.AllDigits(s)
    ensures NoLf(s) && !EndsInCr(s)
  {
  }

  lemma IntTextIsRead(n: int)
    ensures NoLf(IntText(n)) && !EndsInCr(IntText(n))
    ensures StoI(IntText(n)) == if -2147483648 <= n <= 2147483647 then Some(n) else None
  {
    var sign, digits := if n < 0 then "-" else "", Decimal.ToString(if n < 0 then -n else n);
    Decimal.ToStringDenotes(if n < 0 then -n else n);
    SignedIsRead(IntText(n), sign, digits);
  }

  lemma SignedIsRead(text: string, sign: string, digits: string)
    requires sign in {"", "-"} && digits != "" && Decimal.AllDigits(digits) && text == sign + digits
    ensures NoLf(text) && !EndsInCr(text)
    ensures var n: int := if sign == "-" then -(Decimal.Value(digits) as int) else Decimal.Value(digits);
      StoI(text) == if -2147483648 <= n <= 2147483647 then Some(n) else None
  {
    DigitsAreOneLine(digits);
    assert text[|text| - 1] == digits[|digits| - 1];
    assert text == "" + sign + digits + "";
    NumberIsRead(text, "", sign, digits, "");
  }

  lemma BlockIsWritable(chunk: Chunk)
    requires Fits(chunk)
    ensures AllWritable(Block(chunk))
  {
    match chunk
    case Message(eventId, payload) =>
      FieldIsWritable("data", payload);
      if eventId.Some? {
        Decimal.ToStringDenotes(eventId.value);
        DigitsAreOneLine(Decimal.ToString(eventId.value));
        FieldIsWritable("id", Decimal.ToString(eventId.value));
      }
    case Priming(retry) =>
      FieldIsWritable("id", "0");
      FieldIsWritable("data", "{}");
      IntTextIsRead(retry);
      FieldIsWritable("retry", IntText(retry));
    case Hint(retry) =>
      IntTextIsRead(retry);
      FieldIsWritable("retry", IntText(retry));
  }

  lemma FieldText(name: string, prefix: string, value: string)
    requires prefix == name + ": "
    ensures Text(Field(name, value, true)) + "\n" == LineOf(prefix, value)
  {
  }

  lemma PrintFirstOf(a: Item, rest: seq<Item>)
    ensures PrintItems([a] + rest, false) == (Text(a) + "\n") + PrintItems(rest, false)
  {
    assert ([a] + rest)[1..] == rest && Text(a) + "" == Text(a);
  }

  lemma PrintOne(a: Item, line: string)
    requires Text(a) + "\n" == line
    ensures PrintItems([a], false) == line
  {
    PrintFirstOf(a, []);
    assert [a] + [] == [a] && line + "" == line;
  }

  lemma PrintTwo(a: Item, b: Item, first: string, second: string)
    requires Text(a) + "\n" == first && Text(b) + "\n" == second
    ensures PrintItems([a, b], false) == first + second
  {
    PrintOne(b, second);
    PrintFirstOf(a, [b]);
    assert [a] + [b] == [a, b];
  }

  lemma PrintThree(a: Item, b: Item, c: Item, first: string, second: string, third: string)
    requires Text(a) + "\n" == first && Text(b) + "\n" == second && Text(c) + "\n" == third
    ensures PrintItems([a, b, c], false) == first + second + third
  {
    PrintTwo(b, c, second, third);
    PrintFirstOf(a, [b, c]);
    assert [a] + [b, c] == [a, b, c];
    Associates(first, second, third);
  }

  lemma DataText(payload: string)
    ensures Text(DataItem(payload)) + "\n" == LineOf("data: ", payload)
  {
    assert "data" + ": " == "data: ";
    FieldText("data", "data: ", payload);
  }

  lemma IdText(text: string)
    ensures Text(IdItem(text)) + "\n" == LineOf("id: ", text)
  {
    assert "id" + ": " == "id: ";
    FieldText("id", "id: ", text);
  }

  lemma RetryText(ms: int)
    ensures Text(RetryItem(ms)) + "\n" == LineOf("retry: ", IntText(ms))
  {
    assert "retry" + ": " == "retry: ";
    FieldText("retry", "retry: ", IntText(ms));
  }

  lemma PrintedBlock(chunk: Chunk)
    ensures Written(chunk) == PrintItems(Block(chunk), false) + "\n"
  {
    match chunk
    case Message(eventId, payload) =>
      var data := LineOf("data: ", payload);
      DataText(payload);
      if eventId.Some? {
        var id := Decimal.ToString(eventId.value);
        IdText(id);
        PrintTwo(IdItem(id), DataItem(payload), LineOf("id: ", id), data);
      } else {
        PrintOne(DataItem(payload), data);
        assert "" + data == data;
      }
    case Priming(retry) =>
      IdText("0");
      RetryText(retry);
      DataText("{}");
      PrintThree(IdItem("0"), RetryItem(retry), DataItem("{}"),
                 LineOf("id: ", "0"), LineOf("retry: ", IntText(retry)), LineOf("data: ", "{}"));
    case Hint(retry) =>
      RetryText(retry);
      PrintOne(RetryItem(retry), LineOf("retry: ", IntText(retry)));
  }

  // -------------------------------------------------------- what they mean

  lemma DataSays(payload: string)
    requires Writable(DataItem(payload))
    ensures Classify(Text(DataItem(payload))) == Data(payload)
  {
    ItemIsRead(DataItem(payload));
  }

  lemma IdSays(text: string)
    requires Writable(IdItem(text))
    ensures Classify(Text(IdItem(text))) == Id(text)
  {
    ItemIsRead(IdItem(text));
  }

  lemma RetrySays(ms: int)
    requires Writable(RetryItem(ms))
    ensures Classify(Text(RetryItem(ms))) == if -2147483648 <= ms <= 2147483647 then Retry(ms) else Nothing
  {
    ItemIsRead(RetryItem(ms));
    IntTextIsRead(ms);
  }

  lemma AfterAdd(items: seq<Item>, item: Item, all: seq<Item>, line: Line)
    requires all == items + [item] && Classify(Text(item)) == line
    ensures After(all) == Update(After(items), line)
  {
    assert all[..|items|] == items;
  }

  lemma AfterMessage(eventId: Option<nat>, payload: string, data: Item)
    requires data == DataItem(payload) && AllWritable(Block(Message(eventId, payload)))
    ensures After(Block(Message(eventId, payload))) == Received(Message(eventId, payload))
  {
    var block := Block(Message(eventId, payload));
    assert Writable(block[0]) && Writable(block[|block| - 1]);
    DataSays(payload);
    if eventId.Some? {
      var id := Decimal.ToString(eventId.value);
      IdSays(id);
      AfterAdd([], IdItem(id), [IdItem(id)], Id(id));
      AfterAdd([IdItem(id)], data, block, Data(payload));
    } else {
      AfterAdd([], data, block, Data(payload));
    }
  }

  lemma AfterPriming(retry: int, id: Item, ms: Item, data: Item)
    requires id == IdItem("0") && ms == RetryItem(retry) && data == DataItem("{}") && AllWritable(Block(Priming(retry)))
    ensures After(Block(Priming(retry))) == Received(Priming(retry))
  {
    var block := Block(Priming(retry));
    assert Writable(block[0]) && Writable(block[1]) && Writable(block[2]);
    IdSays("0");
    RetrySays(retry);
    DataSays("{}");
    AfterAdd([], id, [id], Id("0"));
    AfterAdd([id], ms, [id, ms], Classify(Text(ms)));
    AfterAdd([id, ms], data, block, Data("{}"));
  }

  lemma AfterHint(retry: int, ms: Item)
    requires ms == RetryItem(retry) && AllWritable(Block(Hint(retry)))
    ensures After(Block(Hint(retry))) == Received(Hint(retry))
  {
    assert Writable(Block(Hint(retry))[0]);
    RetrySays(retry);
    AfterAdd([], ms, Block(Hint(retry)), Classify(Text(ms)));
  }

  lemma BlockMeans(chunk: Chunk)
    requires AllWritable(Block(chunk))
    ensures Meaning(Block(chunk)) == Received(chunk)
  {
    AfterMeans(Block(chunk));
    match chunk
    case Message(eventId, payload) => AfterMessage(eventId, payload, DataItem(payload));
    case Priming(retry) => AfterPriming(retry, IdItem("0"), RetryItem(retry), DataItem("{}"));
    case Hint(retry) => AfterHint(retry, RetryItem(retry));
  }

  lemma {:induction false} StreamThen(chunks: seq<Chunk>, rest: string)
    requires forall i :: 0 <= i < |chunks| ==> Fits(chunks[i])
    ensures ParsedEvents(Stream(chunks) + rest) == AllReceived(chunks) + ParsedEvents(rest)
    decreases |chunks|
  {
    if chunks == [] {
      assert Stream(chunks) + rest == rest;
    } else {
      var first, later := chunks[0], chunks[1..];
      Associates(Written(first), Stream(later), rest);
      OneChunk(first, Stream(later) + rest);
      StreamThen(later, rest);
      Associates([Received(first)], AllReceived(later), ParsedEvents(rest));
    }
  }

  lemma OneChunk(chunk: Chunk, rest: string)
    requires Fits(chunk)
    ensures ParsedEvents(Written(chunk) + rest) == [Received(chunk)] + ParsedEvents(rest)
  {
    PrintedBlock(chunk);
    assert PrintItems(Block(chunk), false) + CrOf(false) == PrintItems(Block(chunk), false);
    BlockIsWritable(chunk);
    BlockMeans(chunk);
    OneBlock(Block(chunk), false, rest);
  }

  /** Whatever chunks the server writes, the client gets the event of each, in order, and
      an empty one for the end of the text. */
  lemma ServerStreamIsRead(chunks: seq<Chunk>)
    requires forall i :: 0 <= i < |chunks| ==> Fits(chunks[i])
    ensures ParsedEvents(Stream(chunks)) == AllReceived(chunks) + [Event("", "", "", -1)]
  {
    StreamThen(chunks, "");
    NoMore(Stream(chunks));
    EndOfText();
  }

  // ----------------------------------------------- payloads that do not fit

  /** What the data lines in `rest` add to an event is less than what they take up. */
  lemma {:induction false} DataTakesUpMore(rest: string, current: Event)
    ensures var events := EventsIn(Classified(Lines(rest)), current);
      events != [] ==> |events[0].data| <= |current.data| + if |rest| < 3 then 0 else |rest| - 3
    decreases |rest|
  {
    var end := FindFrom(rest, '\n', 0);
    var line := StripCr(rest[..end]);
    var later := if end == |rest| then [] else Lines(rest[end + 1..]);
    ClassifiedCons(line, later);
    ReadOn(Classify(line), Classified(later), current);
    LineAdds(line, current);
    if end < |rest| {
      DataTakesUpMore(rest[end + 1..], Update(current, Classify(line)));
    }
  }

  lemma LineAdds(line: string, current: Event)
    ensures |Update(current, Classify(line)).data| <= |current.data| + if |line| < 3 then 0 else |line| - 3
  {
    if Classify(line).Data? {
      var colon := FindFrom(line, ':', 0);
      assert |FieldOf(line)| == colon && |"data"| == 4;
    }
  }

  /** The data line is cut at a line feed in it: `later` is read as further lines. */
  lemma CutLine(items: seq<Item>, before: string, later: string)
    requires AllWritable(items) && NoLf(before)
    ensures ParsedEvents(PrintItems(items, false) + (DATA_PREFIX + before + CrOf(false) + "\n" + later))
         == EventsIn(Classified(Lines(later)), Update(After(items), Data(StripCr(before))))
  {
    var line := DATA_PREFIX + before + CrOf(false);
    assert NoLf(line);
    ItemsAreLines(items, false, line + "\n" + later);
    OneLine(line, later);
    CutRead(items, before, StripCr(line), Lines(later));
  }

  lemma CutRead(items: seq<Item>, before: string, line: string, later: seq<string>)
    requires AllWritable(items) && line == StripCr(DATA_PREFIX + before + CrOf(false))
    ensures EventsIn(Classified(Texts(items) + ([line] + later)), EMPTY_EVENT)
         == EventsIn(Classified(later), Update(After(items), Data(StripCr(before))))
  {
    LinesAreRead(items, [line] + later);
    DataLine(before, false);
    ClassifiedCons(line, later);
    ReadOn(Data(StripCr(before)), Classified(later), After(items));
  }

  function IdItems(eventId: Option<nat>): seq<Item> {
    if eventId.Some? then [IdItem(Decimal.ToString(eventId.value))] else []
  }

  lemma IdItemsKept(eventId: Option<nat>)
    ensures AllWritable(IdItems(eventId)) && After(IdItems(eventId)).data == ""
    ensures PrintItems(IdItems(eventId), false)
         == if eventId.Some? then LineOf("id: ", Decimal.ToString(eventId.value)) else ""
  {
    if eventId.Some? {
      var id := Decimal.ToString(eventId.value);
      Decimal.ToStringDenotes(eventId.value);
      DigitsAreOneLine(id);
      FieldIsWritable("id", id);
      IdSays(id);
      IdText(id);
      PrintOne(IdItem(id), LineOf("id: ", id));
      AfterAdd([], IdItem(id), [IdItem(id)], Id(id));
    }
  }

  lemma Regroup(i: string, p: string, a: string, n: string, r: string, payload: string)
    requires payload == a + n + r
    ensures i + (p + payload + n) + n == i + (p + a + "" + n + (r + n + n))
  {
    assert p + (a + n + r) + n + n == p + a + "" + n + (r + n + n);
  }

  lemma RegroupWhole(i: string, p: string, payload: string, n: string)
    ensures i + (p + payload + n) + n == i + (p + payload + "" + n + n)
  {
    assert p + payload + "" == p + payload;
    Associates(i, p + payload + n, n);
  }

  /** A payload that is cut comes back shorter, if at all. */
  lemma CutPayloadIsShorter(eventId: Option<nat>, payload: string, before: string, later: string)
    requires NoLf(before) && |before| <= |payload| && |later| <= |payload| - |before| + 1
    requires |before| == |payload| ==> EndsInCr(before)
    requires Written(Message(eventId, payload))
          == PrintItems(IdItems(eventId), false) + (DATA_PREFIX + before + CrOf(false) + "\n" + later)
    ensures var events := ParsedEvents(Written(Message(eventId, payload)));
      events != [] ==> |events[0].data| < |payload|
  {
    IdItemsKept(eventId);
    CutLine(IdItems(eventId), before, later);
    DataTakesUpMore(later, Update(After(IdItems(eventId)), Data(StripCr(before))));
  }

  lemma CutAtLf(eventId: Option<nat>, payload: string)
    requires !NoLf(payload)
    ensures var events := ParsedEvents(Written(Message(eventId, payload)));
      events != [] ==> |events[0].data| < |payload|
  {
    var i := FindFrom(payload, '\n', 0);
    FindsFirst(payload, '\n', 0);
    var before, rest := payload[..i], payload[i + 1..];
    assert payload == before + "\n" + rest;
    IdItemsKept(eventId);
    Regroup(PrintItems(IdItems(eventId), false), DATA_PREFIX, before, "\n", rest, payload);
    CutPayloadIsShorter(eventId, payload, before, rest + "\n" + "\n");
  }

  lemma CutAtCr(eventId: Option<nat>, payload: string)
    requires NoLf(payload) && EndsInCr(payload)
    ensures var events := ParsedEvents(Written(Message(eventId, payload)));
      events != [] ==> |events[0].data| < |payload|
  {
    IdItemsKept(eventId);
    RegroupWhole(PrintItems(IdItems(eventId), false), DATA_PREFIX, payload, "\n");
    CutPayloadIsShorter(eventId, payload, payload, "\n");
  }

  /** A message's payload reaches the client exactly when it has no line feed and does
      not end in a carriage return; the writer does not escape either. */
  lemma PayloadArrivesIff(eventId: Option<nat>, payload: string)
    ensures ParsedEvents(Written(Message(eventId, payload))) == [Received(Message(eventId, payload)), EMPTY_EVENT]
       <==> NoLf(payload) && !EndsInCr(payload)
  {
    if NoLf(payload) && !EndsInCr(payload) {
      var chunk := Message(eventId, payload);
      OneChunk(chunk, "");
      NoMore(Written(chunk));
      EndOfText();
    } else if NoLf(payload) {
      CutAtCr(eventId, payload);
    } else {
      CutAtLf(eventId, payload);
    }
  }
}
