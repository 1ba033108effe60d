/** The serializers as they write, piece by piece into one output with a
    `first` flag, and the parser that reads the pieces back. A piece is one
    punctuation character or the `dump` of one JSON value. */
module JsonRpcText {
  import opened Common
  import opened Json
  import opened JsonRpc
  import JsonLimits

  datatype Piece = Open | Close | Comma | Colon | Dump(json: Json)

  /** A value read from the front of the text, and the text after it. */
  datatype Reading = Failed | Read(value: Json, rest: seq<Piece>)

  function ReadValue(text: seq<Piece>): (r: Reading)
    ensures r.Read? ==> |r.rest| < |text|
    decreases |text|, 1
  {
    if text == [] then Failed
    else if text[0].Dump? then Read(text[0].json, text[1..])
    else if text[0] == Open then ReadMembers(true, map[], text[1..])
    else Failed
  }

  /** The rest of an object of which the members `done` have been read. */
  function ReadMembers(first: bool, done: map<string, Json>, text: seq<Piece>): (r: Reading)
    ensures r.Read? ==> |r.rest| < |text|
    decreases |text|, 3
  {
    if text == [] then Failed
    else if text[0] == Close then Read(Obj(done), text[1..])
    else if first then ReadPair(done, text)
    else if text[0] == Comma then ReadPair(done, text[1..])
    else Failed
  }

  function ReadPair(done: map<string, Json>, text: seq<Piece>): (r: Reading)
    ensures r.Read? ==> |r.rest| < |text|
    decreases |text|, 2
  {
    if |text| < 2 || !text[0].Dump? || !text[0].json.Str? || text[1] != Colon then Failed
    else
      match ReadValue(text[2..])
      case Failed => Failed
      case Read(value, rest) => ReadMembers(false, done[text[0].json.s := value], rest)
  }

  /** `text` reads as exactly `value`, whatever comes after it. */
  ghost predicate Reads(text: seq<Piece>, value: Json) {
    forall tail :: ReadValue(text + tail) == Read(value, tail)
  }

  /** A reader of `text` is inside an object with the members `written`. */
  ghost predicate Within(text: seq<Piece>, first: bool, written: map<string, Json>) {
    forall tail :: ReadValue(text + tail) == ReadMembers(first, written, tail)
  }

  function Separator(first: bool): seq<Piece> { if first then [] else [Comma] }

  lemma PairIsRead(first: bool, written: map<string, Json>, name: string, text: seq<Piece>, value: Json, tail: seq<Piece>)
    requires Reads(text, value)
    ensures ReadMembers(first, written, Separator(first) + [Dump(Str(name)), Colon] + text + tail)
         == ReadMembers(false, written[name := value], tail)
  {
    var pair := [Dump(Str(name)), Colon] + text + tail;
    var all := Separator(first) + [Dump(Str(name)), Colon] + text + tail;
    assert all == Separator(first) + pair;
    assert first ==> all == pair;
    assert !first ==> all[1..] == pair;
    assert pair[2..] == text + tail;
    assert ReadPair(written, pair) == ReadMembers(false, written[name := value], tail);
  }

  lemma PropertyExtends(output: seq<Piece>, first: bool, written: map<string, Json>, name: string,
                        text: seq<Piece>, value: Json)
    requires Within(output, first, written) && Reads(text, value)
    ensures Within(output + Separator(first) + [Dump(Str(name)), Colon] + text, false, written[name := value])
  {
    var more := Separator(first) + [Dump(Str(name)), Colon] + text;
    var all := output + Separator(first) + [Dump(Str(name)), Colon] + text;
    forall tail ensures ReadValue(all + tail) == ReadMembers(false, written[name := value], tail) {
      assert all + tail == output + (more + tail);
      PairIsRead(first, written, name, text, value, tail);
    }
  }

  lemma CloseCompletes(output: seq<Piece>, first: bool, written: map<string, Json>)
    requires Within(output, first, written)
    ensures Reads(output + [Close], Obj(written))
  {
    forall tail ensures ReadValue(output + [Close] + tail) == Read(Obj(written), tail) {
      assert output + [Close] + tail == output + ([Close] + tail);
      assert ([Close] + tail)[1..] == tail;
    }
  }

  /** The `std::string& output` and `bool& first` that the append functions
      share, from the opening brace on. */
  class ObjectWriter {
    var output: seq<Piece>
    var first: bool
    ghost var written: map<string, Json>

    ghost predicate Valid()
      reads this
    {
      Within(output, first, written)
    }

    constructor ()
      ensures Valid() && written == map[]
    {
      output, first, written := [Open], true, map[];
    }

    /** `append_separator`, the name, a colon and an already written value. */
    method AppendProperty(name: string, text: seq<Piece>, ghost value: Json)
      requires Valid() && Reads(text, value)
      modifies this
      ensures Valid() && written == old(written)[name := value]
    {
      PropertyExtends(output, first, written, name, text, value);
      if !first {
        output := output + [Comma];
      }
      first := false;
      output := output + [Dump(Str(name)), Colon];
      output := output + text;
      written := written[name := value];
      assert output == old(output) + Separator(old(first)) + [Dump(Str(name)), Colon] + text;
    }

    /** `append_json_property`, `append_string_property`, `append_int_property`. */
    method AppendJson(name: string, value: Json)
      requires Valid()
      modifies this
      ensures Valid() && written == old(written)[name := value]
    {
      AppendProperty(name, [Dump(value)], value);
    }

    /** `append_params_property`. */
    method AppendParams(params: Json, meta: Option<Json>) returns (r: Result<(), Complaint>)
      requires Valid()
      modifies this
      ensures Valid()
      ensures match ParamsMember(params, meta)
        case Err(e) => r == Err(e)
        case Ok(p) => r.Ok? && written == WithOption(old(written), PARAMS, p)
    {
      if meta.None? {
        var normalized := Normalized(params);
        if !normalized.Obj? || normalized.members != map[] {
          AppendJson(PARAMS, normalized);
        }
        return Ok(());
      }
      var merged := Normalized(params);
      if !merged.Obj? {
        return Err(MetaNeedsObject);
      }
      AppendJson(PARAMS, Obj(merged.members[META := meta.value]));
      return Ok(());
    }

    method Finish() returns (text: seq<Piece>)
      requires Valid()
      ensures Reads(text, Obj(written))
    {
      CloseCompletes(output, first, written);
      text := output + [Close];
    }
  }

  /** `serialize_error_object`. */
  method SerializeErrorObject(e: ErrorObject) returns (text: seq<Piece>)
    ensures Reads(text, ErrorToJson(e))
  {
    var w := new ObjectWriter();
    w.AppendJson(CODE, Int(e.code));
    w.AppendJson(MESSAGE, Str(e.message));
    if e.data.Some? {
      w.AppendJson(DATA, e.data.value);
    }
    text := w.Finish();
  }

  /** What it is to serialize a message: the text reads back as its document,
      or the document has no text and the error is the same. */
  ghost predicate Serializes(m: Message, r: Result<seq<Piece>, Complaint>) {
    match ToDocument(m)
    case Err(e) => r == Err(e)
    case Ok(d) => r.Ok? && Reads(r.value, Obj(d))
  }

  /** `serialize_request_direct`. */
  method SerializeRequest(m: Message) returns (r: Result<seq<Piece>, Complaint>)
    requires m.Request?
    ensures Serializes(m, r)
  {
    var w := new ObjectWriter();
    w.AppendJson(VERSION, Str("2.0"));
    w.AppendJson(ID, IdToJson(m.id));
    w.AppendJson(METHOD, Str(m.method_));
    var params := w.AppendParams(m.params, m.meta);
    if params.Err? {
      return Err(params.error);
    }
    var text := w.Finish();
    return Ok(text);
  }

  /** `serialize_notification_direct`. */
  method SerializeNotification(m: Message) returns (r: Result<seq<Piece>, Complaint>)
    requires m.Notification?
    ensures Serializes(m, r)
  {
    var w := new ObjectWriter();
    w.AppendJson(VERSION, Str("2.0"));
    w.AppendJson(METHOD, Str(m.method_));
    var params := w.AppendParams(m.params, m.meta);
    if params.Err? {
      return Err(params.error);
    }
    var text := w.Finish();
    return Ok(text);
  }

  /** `serialize_response_direct`. */
  method SerializeResponse(m: Message) returns (r: Result<seq<Piece>, Complaint>)
    requires m.Response?
    ensures Serializes(m, r)
  {
    var w := new ObjectWriter();
    w.AppendJson(VERSION, Str("2.0"));
    w.AppendJson(ID, if m.replyTo.Some? then IdToJson(m.replyTo.value) else Null);
    if m.meta.Some? {
      w.AppendJson(META, m.meta.value);
    }
    if m.error.Some? {
      var error := SerializeErrorObject(m.error.value);
      w.AppendProperty(ERROR, error, ErrorToJson(m.error.value));
      var text := w.Finish();
      return Ok(text);
    }
    if m.result.None? {
      return Err(NotOneOfResultAndError);
    }
    w.AppendJson(RESULT, m.result.value);
    var text := w.Finish();
    return Ok(text);
  }

  /** `serialize_message`. */
  method SerializeMessage(m: Message) returns (r: Result<seq<Piece>, Complaint>)
    ensures Serializes(m, r)
  {
    match m {
      case Request(_, _, _, _) => r := SerializeRequest(m);
      case Notification(_, _, _) => r := SerializeNotification(m);
      case Response(_, _, _, _) => r := SerializeResponse(m);
    }
  }

  function Invalid(message: string): Error { Error(INVALID_REQUEST, message, "") }

  function LimitMessage(e: JsonLimits.LimitError): Error {
    match e
    case TooDeep => Invalid("JSON-RPC message exceeds maximum JSON depth")
    case TooManyNodes => Invalid("JSON-RPC message exceeds maximum JSON nodes")
    case StringsTooLarge => Invalid("JSON-RPC message exceeds maximum aggregate string size")
    case TooManyEntries => Invalid("JSON-RPC message exceeds maximum aggregate collection entries")
  }

  function Described(r: Result<Message, Complaint>): Result<Message, Error> {
    match r
    case Ok(m) => Ok(m)
    case Err(c) => Err(Describe(c))
  }

  /** `parse_message`. */
  method ParseMessage(text: seq<Piece>) returns (r: Result<Message, Error>)
    ensures var reading := ReadValue(text);
      if reading.Read? && reading.rest == [] && reading.value.Obj? && JsonLimits.WithinLimits(reading.value)
      then r == Described(FromDocument(reading.value.members))
      else if reading.Failed? || reading.rest != [] then r == Err(Error(PARSE_ERROR, "Invalid JSON", ""))
      else if reading.value.Arr? then r == Err(Error(INVALID_REQUEST, "Batch messages are not supported", ""))
      else if !reading.value.Obj? then r == Err(Error(INVALID_REQUEST, "JSON-RPC message must be an object", ""))
      else exists e :: JsonLimits.Exceeded(reading.value, e) && r == Err(LimitMessage(e))
  {
    var reading := ReadValue(text);
    if reading.Failed? || reading.rest != [] {
      return Err(Error(PARSE_ERROR, "Invalid JSON", ""));
    }
    if reading.value.Arr? {
      return Err(Invalid("Batch messages are not supported"));
    }
    if !reading.value.Obj? {
      return Err(Invalid("JSON-RPC message must be an object"));
    }
    var limits := JsonLimits.ValidateLimits(reading.value);
    if limits.Some? {
      return Err(LimitMessage(limits.value));
    }
    return Described(FromDocument(reading.value.members));
  }

  /** Through the text and back: a canonical message whose document is within
      the limits is read back as itself, and every message that gets through
      comes out in canonical form. */
  method RoundTrip(m: Message) returns (r: Result<Message, Error>)
    ensures Canonical(m) && JsonLimits.WithinLimits(Obj(ToDocument(m).value)) ==> r == Ok(m)
    ensures r.Ok? ==> Travels(m) && r.value == CanonicalForm(m) && Canonical(r.value)
    ensures r.Err? && Travels(m) ==> !JsonLimits.WithinLimits(Obj(ToDocument(m).value))
  {
    PassCanonicalises(m);
    CanonicalMeansFixed(m);
    var text := SerializeMessage(m);
    if text.Err? {
      return Err(Describe(text.error));
    }
    assert ReadValue(text.value) == Read(Obj(ToDocument(m).value), []) by { assert text.value + [] == text.value; }
    r := ParseMessage(text.value);
  }
}
