/** JSON-RPC messages as documents: what the hand-written serializers emit, and
    what the document parser makes of it. */
module JsonRpc {
  import opened Common
  import opened Json

  type int64 = x: int | -0x8000_0000_0000_0000 <= x < 0x8000_0000_0000_0000
  type int32 = x: int | -0x8000_0000 <= x < 0x8000_0000

  /** `get<std::int64_t>` on a JSON integer, which may have come in unsigned. */
  function ToInt64(n: int): int64 {
    (n + 0x8000_0000_0000_0000) % 0x1_0000_0000_0000_0000 - 0x8000_0000_0000_0000
  }

  /** `get<int>` on a JSON integer. */
  function ToInt32(n: int): int32 {
    (n + 0x8000_0000) % 0x1_0000_0000 - 0x8000_0000
  }

  datatype RequestId = Num(n: int64) | Text(s: string)

  datatype ErrorObject = ErrorObject(code: int32, message: string, data: Option<Json>)

  datatype Message =
    | Request(method_: string, params: Json, id: RequestId, meta: Option<Json>)
    | Notification(method_: string, params: Json, meta: Option<Json>)
    | Response(replyTo: Option<RequestId>, result: Option<Json>, error: Option<ErrorObject>, meta: Option<Json>)

  const VERSION := "jsonrpc"
  const ID := "id"
  const METHOD := "method"
  const PARAMS := "params"
  const META := "_meta"
  const RESULT := "result"
  const ERROR := "error"
  const CODE := "code"
  const MESSAGE := "message"
  const DATA := "data"

  const EMPTY_OBJECT := Obj(map[])

  /** Why a message is refused, by the serializer or by the parser. */
  datatype Complaint =
    | BadVersion | NotOneOfResultAndError | Unsupported
    | BadMethod | EmptyMethod | BadParams | BadMeta | BadParamsMeta | MetaNeedsObject
    | MissingId | BadRequestId | BadResponseId
    | BadError | BadErrorCode | BadErrorMessage

  /** The `core::Error` for a complaint. */
  function Describe(c: Complaint): Error {
    var message := match c
      case MetaNeedsObject => "params must be an object when _meta is present"
      case NotOneOfResultAndError => "Response must contain exactly one of result or error"
      case BadParams => "params must be an object or array"
      case BadParamsMeta => "params _meta must be an object"
      case BadMeta => "_meta must be an object"
      case BadMethod => "method must be a string value"
      case EmptyMethod => "method must not be empty"
      case BadRequestId => "Request id must be an integer or string"
      case BadError => "error must be an object"
      case BadErrorCode => "error code is missing or invalid"
      case BadErrorMessage => "error message is missing or invalid"
      case MissingId => "id is missing"
      case BadResponseId => "Response id must be null, integer, or string"
      case BadVersion => "JSON-RPC version must be 2.0"
      case Unsupported => "Unsupported JSON-RPC entity";
    Error(INVALID_REQUEST, message, "")
  }

  // --------------------------------------------------------------- to documents

  function IdToJson(id: RequestId): Json {
    match id
    case Num(n) => Int(n)
    case Text(s) => Str(s)
  }

  function Normalized(params: Json): Json { if params.Null? then EMPTY_OBJECT else params }

  /** `append_params_property`: the params member to write, if any. */
  function ParamsMember(params: Json, meta: Option<Json>): Result<Option<Json>, Complaint> {
    var p := Normalized(params);
    if meta.None? then Ok(if p == EMPTY_OBJECT then None else Some(p))
    else if !p.Obj? then Err(MetaNeedsObject)
    else Ok(Some(Obj(p.members[META := meta.value])))
  }

  function WithOption(m: map<string, Json>, key: string, value: Option<Json>): map<string, Json> {
    if value.Some? then m[key := value.value] else m
  }

  function ErrorToJson(e: ErrorObject): Json {
    Obj(WithOption(map[CODE := Int(e.code), MESSAGE := Str(e.message)], DATA, e.data))
  }

  /** The document the serializer writes for a message. */
  function ToDocument(m: Message): Result<map<string, Json>, Complaint> {
    match m
    case Request(name, params, id, meta) =>
      (match ParamsMember(params, meta)
       case Err(e) => Err(e)
       case Ok(p) => Ok(WithOption(map[VERSION := Str("2.0"), ID := IdToJson(id), METHOD := Str(name)], PARAMS, p)))
    case Notification(name, params, meta) =>
      (match ParamsMember(params, meta)
       case Err(e) => Err(e)
       case Ok(p) => Ok(WithOption(map[VERSION := Str("2.0"), METHOD := Str(name)], PARAMS, p)))
    case Response(id, result, error, meta) =>
      var head := WithOption(map[VERSION := Str("2.0"), ID := if id.Some? then IdToJson(id.value) else Null], META, meta);
      if error.Some? then Ok(head[ERROR := ErrorToJson(error.value)])
      else if result.None? then Err(NotOneOfResultAndError)
      else Ok(head[RESULT := result.value])
  }

  // ------------------------------------------------------------- from documents

  function IdFromJson(j: Json): Option<RequestId> {
    match j
    case Int(n) => Some(Num(ToInt64(n)))
    case Str(s) => Some(Text(s))
    case _ => None
  }

  /** `params_from_document_or_empty`. */
  function ParamsFrom(d: map<string, Json>): Result<Json, Complaint> {
    if PARAMS !in d then Ok(EMPTY_OBJECT)
    else
      var p := Normalized(d[PARAMS]);
      if !p.Obj? && !p.Arr? then Err(BadParams) else Ok(p)
  }

  /** `meta_from_document` and `meta_from_params`. */
  function MetaFrom(m: map<string, Json>, complaint: Complaint): Result<Option<Json>, Complaint> {
    if META !in m then Ok(None)
    else if !m[META].Obj? then Err(complaint)
    else Ok(Some(m[META]))
  }

  function MetaFromParams(params: Json): Result<Option<Json>, Complaint> {
    if !params.Obj? then Ok(None) else MetaFrom(params.members, BadParamsMeta)
  }

  /** The part of a request or notification that the two share. */
  datatype Call = Call(name: string, params: Json, meta: Option<Json>)

  function CallFrom(d: map<string, Json>): Result<Call, Complaint>
    requires METHOD in d
  {
    var name := d[METHOD];
    if !name.Str? then Err(BadMethod)
    else if name.s == "" then Err(EmptyMethod)
    else
      match ParamsFrom(d)
      case Err(e) => Err(e)
      case Ok(params) =>
        match MetaFromParams(params)
        case Err(e) => Err(e)
        case Ok(meta) => Ok(Call(name.s, params, meta))
  }

  /** `request_from_document`. */
  function RequestFrom(d: map<string, Json>): Result<Message, Complaint>
    requires METHOD in d && ID in d
  {
    match CallFrom(d)
    case Err(e) => Err(e)
    case Ok(call) =>
      match IdFromJson(d[ID])
      case None => Err(BadRequestId)
      case Some(id) => Ok(Request(call.name, call.params, id, call.meta))
  }

  /** `notification_from_document`. */
  function NotificationFrom(d: map<string, Json>): Result<Message, Complaint>
    requires METHOD in d
  {
    match CallFrom(d)
    case Err(e) => Err(e)
    case Ok(call) => Ok(Notification(call.name, call.params, call.meta))
  }

  /** `error_object_from_json`. */
  function ErrorFrom(j: Json): Result<ErrorObject, Complaint> {
    if !j.Obj? then Err(BadError)
    else
      var m := j.members;
      if CODE !in m || !m[CODE].Int? then Err(BadErrorCode)
      else if MESSAGE !in m || !m[MESSAGE].Str? then Err(BadErrorMessage)
      else Ok(ErrorObject(ToInt32(m[CODE].n), m[MESSAGE].s, if DATA in m then Some(m[DATA]) else None))
  }

  /** `response_id_from_document`. */
  function ResponseIdFrom(d: map<string, Json>): Result<Option<RequestId>, Complaint> {
    if ID !in d then Err(MissingId)
    else if d[ID].Null? then Ok(None)
    else
      match IdFromJson(d[ID])
      case None => Err(BadResponseId)
      case Some(id) => Ok(Some(id))
  }

  /** `response_from_document`. */
  function ResponseFrom(d: map<string, Json>): Result<Message, Complaint>
    requires RESULT in d || ERROR in d
  {
    match ResponseIdFrom(d)
    case Err(e) => Err(e)
    case Ok(id) =>
      match MetaFrom(d, BadMeta)
      case Err(e) => Err(e)
      case Ok(meta) =>
        if ERROR in d then
          match ErrorFrom(d[ERROR])
          case Err(e) => Err(e)
          case Ok(error) => Ok(Response(id, None, Some(error), meta))
        else Ok(Response(id, Some(d[RESULT]), None, meta))
  }

  /** `parse_message`, once the document has passed the limits. */
  function FromDocument(d: map<string, Json>): Result<Message, Complaint> {
    if VERSION !in d || d[VERSION] != Str("2.0") then Err(BadVersion)
    else if RESULT in d && ERROR in d then Err(NotOneOfResultAndError)
    else if METHOD in d then if ID in d then RequestFrom(d) else NotificationFrom(d)
    else if RESULT in d || ERROR in d then ResponseFrom(d)
    else Err(Unsupported)
  }

  // ------------------------------------------------------------ canonical form

  /** Parameters as the parser would hold them: an object or array, with the
      metadata of an object repeated beside it. */
  predicate CanonicalCall(name: string, params: Json, meta: Option<Json>) {
    && name != ""
    && (params.Obj? || params.Arr?)
    && MetaFromParams(params) == Ok(meta)
  }

  predicate Canonical(m: Message) {
    match m
    case Request(name, params, _, meta) => CanonicalCall(name, params, meta)
    case Notification(name, params, meta) => CanonicalCall(name, params, meta)
    case Response(_, result, error, meta) =>
      (result.Some? <==> error.None?) && (meta.Some? ==> meta.value.Obj?)
  }

  /** Null params become `{}` and metadata is merged into the params. */
  function MergedParams(params: Json, meta: Option<Json>): Json {
    var p := Normalized(params);
    if meta.Some? && p.Obj? then Obj(p.members[META := meta.value]) else p
  }

  function MetaOf(params: Json): Option<Json> {
    if params.Obj? && META in params.members then Some(params.members[META]) else None
  }

  function CanonicalForm(m: Message): Message {
    match m
    case Request(name, params, id, meta) =>
      Request(name, MergedParams(params, meta), id, MetaOf(MergedParams(params, meta)))
    case Notification(name, params, meta) =>
      Notification(name, MergedParams(params, meta), MetaOf(MergedParams(params, meta)))
    case Response(id, result, error, meta) =>
      Response(id, if error.Some? then None else result, error, meta)
  }

  /** Whether the parser takes what the serializer writes for `m`. */
  predicate Travels(m: Message) {
    match m
    case Request(name, params, _, meta) => CallTravels(name, params, meta)
    case Notification(name, params, meta) => CallTravels(name, params, meta)
    case Response(_, result, error, meta) => (result.Some? || error.Some?) && (meta.Some? ==> meta.value.Obj?)
  }

  predicate CallTravels(name: string, params: Json, meta: Option<Json>) {
    var p := MergedParams(params, meta);
    && name != ""
    && (p.Obj? || (p.Arr? && meta.None?))
    && (MetaOf(p).Some? ==> MetaOf(p).value.Obj?)
  }

  // ------------------------------------------------------------- the round trip

  lemma KeysDiffer()
    ensures VERSION != ID && VERSION != METHOD && VERSION != PARAMS && VERSION != META
    ensures VERSION != RESULT && VERSION != ERROR && ID != METHOD && ID != PARAMS && ID != META
    ensures ID != RESULT && ID != ERROR && METHOD != PARAMS && METHOD != META && METHOD != RESULT
    ensures METHOD != ERROR && META != RESULT && META != ERROR && RESULT != ERROR && PARAMS != META
    ensures PARAMS != RESULT && PARAMS != ERROR
    ensures CODE != MESSAGE && CODE != DATA && MESSAGE != DATA
  {
    assert METHOD[0] == 'm' && PARAMS[0] == 'p' && RESULT[0] == 'r';
    assert META[0] == '_' && ERROR[0] == 'e';
    assert VERSION[0] == 'j' && MESSAGE[0] == 'm';
    assert CODE[0] == 'c' && DATA[0] == 'd';
  }

  lemma IdRoundTrip(id: RequestId)
    ensures IdFromJson(IdToJson(id)) == Some(id)
  {
  }

  lemma ErrorRoundTrip(e: ErrorObject)
    ensures ErrorFrom(ErrorToJson(e)) == Ok(e)
  {
    KeysDiffer();
  }

  /** What the params member written for a call parses back to. */
  lemma ParamsRoundTrip(params: Json, meta: Option<Json>, d: map<string, Json>)
    requires ParamsMember(params, meta).Ok?
    requires PARAMS in d <==> ParamsMember(params, meta).value.Some?
    requires PARAMS in d ==> d[PARAMS] == ParamsMember(params, meta).value.value
    ensures var p := MergedParams(params, meta);
      ParamsFrom(d) == if p.Obj? || p.Arr? then Ok(p) else Err(BadParams)
  {
  }

  /** A call is parsed back to its canonical form exactly when it travels. */
  lemma CallRoundTrip(name: string, params: Json, meta: Option<Json>, d: map<string, Json>)
    requires ParamsMember(params, meta).Ok?
    requires METHOD in d && d[METHOD] == Str(name)
    requires PARAMS in d <==> ParamsMember(params, meta).value.Some?
    requires PARAMS in d ==> d[PARAMS] == ParamsMember(params, meta).value.value
    ensures CallFrom(d).Ok? <==> CallTravels(name, params, meta)
    ensures CallFrom(d).Ok? ==>
      CallFrom(d).value == Call(name, MergedParams(params, meta), MetaOf(MergedParams(params, meta)))
  {
    ParamsRoundTrip(params, meta, d);
  }

  lemma ParamsMemberOk(params: Json, meta: Option<Json>)
    ensures ParamsMember(params, meta).Ok? <==> meta.None? || Normalized(params).Obj?
    ensures var p := MergedParams(params, meta);
      ParamsMember(params, meta).Ok? && (p.Obj? || p.Arr?) && (MetaOf(p).Some? ==> MetaOf(p).value.Obj?) ==>
        MetaFromParams(p) == Ok(MetaOf(p)) && ParamsMember(p, MetaOf(p)) == ParamsMember(params, meta)
  {
    var p := MergedParams(params, meta);
    if p.Obj? && META in p.members {
      assert p.members[META := p.members[META]] == p.members;
    }
  }

  lemma RequestPass(m: Message)
    requires m.Request?
    ensures (ToDocument(m).Ok? && FromDocument(ToDocument(m).value).Ok?) <==> Travels(m)
    ensures Travels(m) ==> FromDocument(ToDocument(m).value) == Ok(CanonicalForm(m))
  {
    KeysDiffer();
    ParamsMemberOk(m.params, m.meta);
    if ToDocument(m).Ok? {
      var d := ToDocument(m).value;
      CallRoundTrip(m.method_, m.params, m.meta, d);
      IdRoundTrip(m.id);
      assert d[ID] == IdToJson(m.id);
      assert FromDocument(d) == RequestFrom(d);
    }
  }

  lemma NotificationPass(m: Message)
    requires m.Notification?
    ensures (ToDocument(m).Ok? && FromDocument(ToDocument(m).value).Ok?) <==> Travels(m)
    ensures Travels(m) ==> FromDocument(ToDocument(m).value) == Ok(CanonicalForm(m))
  {
    KeysDiffer();
    ParamsMemberOk(m.params, m.meta);
    if ToDocument(m).Ok? {
      var d := ToDocument(m).value;
      CallRoundTrip(m.method_, m.params, m.meta, d);
      assert FromDocument(d) == NotificationFrom(d);
    }
  }

  lemma ResponsePass(m: Message)
    requires m.Response?
    ensures (ToDocument(m).Ok? && FromDocument(ToDocument(m).value).Ok?) <==> Travels(m)
    ensures Travels(m) ==> FromDocument(ToDocument(m).value) == Ok(CanonicalForm(m))
  {
    KeysDiffer();
    if ToDocument(m).Ok? {
      var d := ToDocument(m).value;
      assert FromDocument(d) == ResponseFrom(d);
      if m.replyTo.Some? { IdRoundTrip(m.replyTo.value); }
      if m.error.Some? { ErrorRoundTrip(m.error.value); }
    }
  }

  /** One serialize-then-parse pass: which messages both sides accept, what
      comes out, that it is canonical, and that a second pass writes the very
      same document. */
  lemma PassCanonicalises(m: Message)
    ensures (ToDocument(m).Ok? && FromDocument(ToDocument(m).value).Ok?) <==> Travels(m)
    ensures Travels(m) ==>
      && FromDocument(ToDocument(m).value) == Ok(CanonicalForm(m))
      && Canonical(CanonicalForm(m))
      && ToDocument(CanonicalForm(m)) == ToDocument(m)
  {
    match m
    case Request(_, params, _, meta) =>
      RequestPass(m);
      ParamsMemberOk(params, meta);
    case Notification(_, params, meta) =>
      NotificationPass(m);
      ParamsMemberOk(params, meta);
    case Response(_, _, _, _) =>
      ResponsePass(m);
  }

  lemma CanonicalMeansFixed(m: Message)
    ensures Canonical(m) <==> Travels(m) && CanonicalForm(m) == m
  {
    if m.Request? || m.Notification? {
      ParamsMemberOk(m.params, m.meta);
      if m.params.Obj? && META in m.params.members {
        assert m.params.members[META := m.params.members[META]] == m.params.members;
      }
    }
  }

  /** A message comes back unchanged, kind included, exactly when it is
      canonical. */
  lemma RoundTripIffCanonical(m: Message)
    ensures (ToDocument(m).Ok? && FromDocument(ToDocument(m).value) == Ok(m)) <==> Canonical(m)
  {
    PassCanonicalises(m);
    CanonicalMeansFixed(m);
  }

  /** Whatever the parser accepts is canonical, so it survives any number of
      further passes unchanged. */
  lemma ParsedIsCanonical(d: map<string, Json>)
    requires FromDocument(d).Ok?
    ensures Canonical(FromDocument(d).value)
  {
  }
}
