/** Which documents are JSON-RPC messages, and what they say, member by member: the
    reading that the parser and the serializers are held to. */
module JsonRpcMembers {
  import opened Common
  import opened Json
  import opened JsonRpc

  // ------------------------------------------------- which documents are accepted

  predicate HasVersion(d: map<string, Json>) { "jsonrpc" in d && d["jsonrpc"] == Str("2.0") }

  predicate HasBoth(d: map<string, Json>) { "result" in d && "error" in d }

  /** Params are absent, null, an object or an array. */
  predicate ParamsFit(d: map<string, Json>) {
    "params" in d ==> d["params"].Null? || d["params"].Obj? || d["params"].Arr?
  }

  /** Object params have metadata only as an object. */
  predicate ParamsMetaFits(d: map<string, Json>) {
    "params" in d && d["params"].Obj? && "_meta" in d["params"].members ==> d["params"].members["_meta"].Obj?
  }

  predicate IsId(j: Json) { j.Int? || j.Str? }

  predicate IsError(j: Json) {
    && j.Obj? && "code" in j.members && j.members["code"].Int?
    && "message" in j.members && j.members["message"].Str?
  }

  /** A request or notification, its members considered one by one. */
  predicate IsCall(d: map<string, Json>)
    requires "method" in d
  {
    && d["method"].Str? && d["method"].s != "" && ParamsFit(d) && ParamsMetaFits(d)
    && ("id" in d ==> IsId(d["id"]))
  }

  predicate IsResponse(d: map<string, Json>) {
    && ("result" in d || ("error" in d && IsError(d["error"])))
    && "id" in d && (d["id"].Null? || IsId(d["id"]))
    && ("_meta" in d ==> d["_meta"].Obj?)
  }

  predicate IsMessage(d: map<string, Json>) {
    && HasVersion(d) && !HasBoth(d)
    && if "method" in d then IsCall(d) else IsResponse(d)
  }

  lemma CallAccepted(d: map<string, Json>)
    requires "method" in d
    ensures CallFrom(d).Ok? <==> d["method"].Str? && d["method"].s != "" && ParamsFit(d) && ParamsMetaFits(d)
  {
  }

  lemma ErrorAccepted(j: Json)
    ensures ErrorFrom(j).Ok? <==> IsError(j)
  {
  }

  lemma ResponseAccepted(d: map<string, Json>)
    requires ("result" in d || "error" in d) && !HasBoth(d)
    ensures ResponseFrom(d).Ok? <==> IsResponse(d)
  {
    if "error" in d { ErrorAccepted(d["error"]); }
  }

  /** The parser accepts exactly the documents that are messages. */
  lemma AcceptsIff(d: map<string, Json>)
    ensures FromDocument(d).Ok? <==> IsMessage(d)
  {
    if HasVersion(d) && !HasBoth(d) {
      if "method" in d {
        CallAccepted(d);
      } else if "result" in d || "error" in d {
        ResponseAccepted(d);
      }
    }
  }

  // --------------------------------------------------------- what a message says

  /** Absent and null params are the empty object; any other params are themselves. */
  predicate SaysParams(d: map<string, Json>, params: Json) {
    params == if "params" !in d || d["params"].Null? then Obj(map[]) else d["params"]
  }

  /** The metadata is repeated from the params. */
  predicate SaysMeta(params: Json, meta: Option<Json>) {
    meta == if params.Obj? && "_meta" in params.members then Some(params.members["_meta"]) else None
  }

  predicate SaysCall(d: map<string, Json>, name: string, params: Json, meta: Option<Json>) {
    "method" in d && d["method"] == Str(name) && SaysParams(d, params) && SaysMeta(params, meta)
  }

  /** A number is itself, less 2^64 if it is one that only an unsigned 64-bit integer holds. */
  predicate SaysId(j: Json, id: RequestId) {
    match j
    case Str(s) => id == Text(s)
    case Int(n) =>
      && id.Num?
      && (-0x8000_0000_0000_0000 <= n < 0x8000_0000_0000_0000 ==> id.n == n)
      && (0x8000_0000_0000_0000 <= n < 0x1_0000_0000_0000_0000 ==> id.n == n - 0x1_0000_0000_0000_0000)
    case _ => false
  }

  /** A code that fits 32 bits is itself. */
  predicate SaysError(j: Json, e: ErrorObject) {
    && IsError(j) && j.members["message"] == Str(e.message)
    && (-0x8000_0000 <= j.members["code"].n < 0x8000_0000 ==> e.code == j.members["code"].n)
    && (j.members["code"].n - e.code) % 0x1_0000_0000 == 0
    && e.data == if "data" in j.members then Some(j.members["data"]) else None
  }

  predicate Says(d: map<string, Json>, m: Message) {
    match m
    case Request(name, params, id, meta) => "id" in d && SaysId(d["id"], id) && SaysCall(d, name, params, meta)
    case Notification(name, params, meta) => "id" !in d && SaysCall(d, name, params, meta)
    case Response(id, result, error, meta) =>
      && "method" !in d && "id" in d
      && (if id.Some? then SaysId(d["id"], id.value) else d["id"].Null?)
      && result == (if "result" in d then Some(d["result"]) else None)
      && (if error.Some? then "error" in d && SaysError(d["error"], error.value) else "error" !in d)
      && meta == if "_meta" in d then Some(d["_meta"]) else None
  }

  lemma IdSaid(j: Json)
    requires IdFromJson(j).Some?
    ensures IsId(j) && SaysId(j, IdFromJson(j).value)
  {
  }

  lemma ErrorSaid(j: Json)
    requires ErrorFrom(j).Ok?
    ensures SaysError(j, ErrorFrom(j).value)
  {
  }

  lemma CallSaid(d: map<string, Json>)
    requires "method" in d && CallFrom(d).Ok?
    ensures var c := CallFrom(d).value; SaysCall(d, c.name, c.params, c.meta)
  {
  }

  lemma ResponseSaid(d: map<string, Json>)
    requires ("result" in d || "error" in d) && !HasBoth(d) && "method" !in d && ResponseFrom(d).Ok?
    ensures ResponseFrom(d).value.Response? && Says(d, ResponseFrom(d).value)
  {
    if !d["id"].Null? { IdSaid(d["id"]); }
    if "error" in d { ErrorSaid(d["error"]); }
  }

  /** What the parser makes of a document is what its members say, field by field. */
  lemma MeansWhatItSays(d: map<string, Json>)
    requires FromDocument(d).Ok?
    ensures Says(d, FromDocument(d).value)
  {
    if "method" in d {
      CallSaid(d);
      if "id" in d { IdSaid(d["id"]); }
    } else {
      ResponseSaid(d);
    }
  }

  // ------------------------------------------------------------ why one is refused

  /** The fault a complaint names, and where in the order of looking it stands. */
  predicate Fault(d: map<string, Json>, c: Complaint) {
    match c
    case BadVersion => !HasVersion(d)
    case NotOneOfResultAndError => HasBoth(d)
    case Unsupported => "method" !in d && "result" !in d && "error" !in d
    case BadMethod => "method" in d && !d["method"].Str?
    case EmptyMethod => "method" in d && d["method"] == Str("")
    case BadParams => "method" in d && !ParamsFit(d)
    case BadParamsMeta => "method" in d && !ParamsMetaFits(d)
    case BadRequestId => "method" in d && "id" in d && !IsId(d["id"])
    case MissingId => "method" !in d && "id" !in d
    case BadResponseId => "method" !in d && "id" in d && !d["id"].Null? && !IsId(d["id"])
    case BadMeta => "method" !in d && "_meta" in d && !d["_meta"].Obj?
    case BadError => "method" !in d && "error" in d && !d["error"].Obj?
    case BadErrorCode =>
      && "method" !in d && "error" in d && d["error"].Obj?
      && !("code" in d["error"].members && d["error"].members["code"].Int?)
    case BadErrorMessage =>
      && "method" !in d && "error" in d && d["error"].Obj?
      && !("message" in d["error"].members && d["error"].members["message"].Str?)
    case MetaNeedsObject => false
  }

  function Rank(c: Complaint): nat {
    match c
    case BadVersion => 0
    case NotOneOfResultAndError => 1
    case Unsupported => 2
    case BadMethod => 3
    case EmptyMethod => 4
    case BadParams => 5
    case BadParamsMeta => 6
    case BadRequestId => 7
    case MissingId => 8
    case BadResponseId => 9
    case BadMeta => 10
    case BadError => 11
    case BadErrorCode => 12
    case BadErrorMessage => 13
    case MetaNeedsObject => 14
  }

  /** A document is refused for a fault it has, the first of those it has in the order of looking. */
  lemma RefusedForItsFirstFault(d: map<string, Json>, other: Complaint)
    requires FromDocument(d).Err?
    ensures Fault(d, FromDocument(d).error)
    ensures Fault(d, other) ==> Rank(FromDocument(d).error) <= Rank(other)
  {
  }

  // ----------------------------------------------------------- what is written

  /** The params that go with a call: null is the empty object, and metadata is added to an object. */
  predicate Carries(params: Json, meta: Option<Json>, written: Json) {
    var p := if params.Null? then Obj(map[]) else params;
    if meta.None? then written == p
    else
      && p.Obj? && written.Obj? && written.members.Keys == p.members.Keys + {"_meta"}
      && written.members["_meta"] == meta.value
      && forall k :: k in p.members && k != "_meta" ==> written.members[k] == p.members[k]
  }

  /** Empty params are left out, unless metadata makes them non-empty. */
  predicate WritesParams(d: map<string, Json>, params: Json, meta: Option<Json>) {
    if meta.None? && (params.Null? || params == Obj(map[])) then "params" !in d
    else "params" in d && Carries(params, meta, d["params"])
  }

  /** The members of a message, and no others. */
  predicate Writes(d: map<string, Json>, m: Message) {
    && HasVersion(d)
    && match m
       case Request(name, params, id, meta) =>
         && d.Keys - {"params"} == {"jsonrpc", "id", "method"}
         && d["id"] == (if id.Num? then Int(id.n) else Str(id.s)) && d["method"] == Str(name) && WritesParams(d, params, meta)
       case Notification(name, params, meta) =>
         && d.Keys - {"params"} == {"jsonrpc", "method"}
         && d["method"] == Str(name) && WritesParams(d, params, meta)
       case Response(id, result, error, meta) =>
         && d.Keys - {"_meta"} == {"jsonrpc", "id", if error.Some? then "error" else "result"}
         && d["id"] == (if id.None? then Null else if id.value.Num? then Int(id.value.n) else Str(id.value.s))
         && (if meta.Some? then "_meta" in d && d["_meta"] == meta.value else "_meta" !in d)
         && (if error.Some? then WritesError(d["error"], error.value) else result.Some? && d["result"] == result.value)
  }

  predicate WritesError(j: Json, e: ErrorObject) {
    && j.Obj? && j.members.Keys - {"data"} == {"code", "message"}
    && j.members["code"] == Int(e.code) && j.members["message"] == Str(e.message)
    && (if e.data.Some? then "data" in j.members && j.members["data"] == e.data.value else "data" !in j.members)
  }

  lemma ErrorWritten(e: ErrorObject)
    ensures WritesError(ErrorToJson(e), e)
  {
    KeysDiffer();
  }

  lemma ParamsWritten(params: Json, meta: Option<Json>)
    requires ParamsMember(params, meta).Ok?
    ensures var p := ParamsMember(params, meta).value;
      if meta.None? && (params.Null? || params == Obj(map[])) then p.None? else p.Some? && Carries(params, meta, p.value)
  {
  }

  lemma RequestWritten(m: Message)
    requires m.Request? && ToDocument(m).Ok?
    ensures Writes(ToDocument(m).value, m)
  {
    KeysDiffer();
    ParamsWritten(m.params, m.meta);
  }

  lemma NotificationWritten(m: Message)
    requires m.Notification? && ToDocument(m).Ok?
    ensures Writes(ToDocument(m).value, m)
  {
    KeysDiffer();
    ParamsWritten(m.params, m.meta);
  }

  lemma ResponseWritten(m: Message)
    requires m.Response? && ToDocument(m).Ok?
    ensures Writes(ToDocument(m).value, m)
  {
    KeysDiffer();
    if m.error.Some? { ErrorWritten(m.error.value); }
  }

  /** A message is written as its members, and no others; it is refused exactly if it
      has metadata for params that are no object, or is a response without a result
      or an error. */
  lemma WrittenAsItsMembers(m: Message)
    ensures ToDocument(m).Ok? ==> Writes(ToDocument(m).value, m)
    ensures ToDocument(m).Err? <==>
      if m.Response? then m.result.None? && m.error.None?
      else m.meta.Some? && !m.params.Null? && !m.params.Obj?
  {
    if ToDocument(m).Ok? {
      match m
      case Request(_, _, _, _) => RequestWritten(m);
      case Notification(_, _, _) => NotificationWritten(m);
      case Response(_, _, _, _) => ResponseWritten(m);
    }
  }
}
