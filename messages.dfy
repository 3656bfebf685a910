/**
 * The JSON-RPC wire-message union of transport/types.go: four payload records, the tagged
 * `BaseJsonRpcMessage` holding at most one of them, its constructors, and `MarshalJSON`.
 *
 * JSON is represented structurally (`Json`, an object as its key-value mapping); raw JSON
 * fields (`json.RawMessage`) stay opaque bytes. Each payload's `Encode*` function follows its
 * struct's JSON tags and `omitempty` options, and each `Decode*` function is the structural
 * inverse that the round-trip contracts use.
 */
module Messages {
  import opened Wrappers

  type RequestId = Int64

  /** A JSON value as encoding produces it; an object is its key-value mapping. */
  datatype Json =
    | JNull
    | JInt(i: int)
    | JString(s: string)
    | JRaw(raw: Bytes)
    | JObject(members: map<string, Json>)

  /** The key set of an encoded object; other values have none. */
  function ObjectKeys(j: Json): set<string> {
    if j.JObject? then j.members.Keys else {}
  }

  // ---------------------------------------------------------------- payloads

  /** `BaseJSONRPCErrorInner`: `data` is an `interface{}`, nil when `None`. */
  datatype JsonRpcErrorInner = JsonRpcErrorInner(code: Int64, data: Option<Json>, message: string)

  /** `BaseJSONRPCError`. */
  datatype JsonRpcError = JsonRpcError(error: JsonRpcErrorInner, id: RequestId, jsonrpc: string)

  /** `BaseJSONRPCRequest`; empty `params` stands for a nil `json.RawMessage`. */
  datatype JsonRpcRequest = JsonRpcRequest(id: RequestId, jsonrpc: string, methodName: string, params: Bytes)

  /** `BaseJSONRPCNotification`: it has no id. */
  datatype JsonRpcNotification = JsonRpcNotification(jsonrpc: string, methodName: string, params: Bytes)

  /** `BaseJSONRPCResponse`. */
  datatype JsonRpcResponse = JsonRpcResponse(id: RequestId, jsonrpc: string, result: Bytes)

  // ---------------------------------------------------------------- encoding

  /** A raw member tagged `omitempty`: left out when the raw message is empty. */
  function OmitEmpty(ms: map<string, Json>, key: string, raw: Bytes): map<string, Json> {
    if |raw| == 0 then ms else ms[key := JRaw(raw)]
  }

  /** A raw value without `omitempty`: a nil raw message encodes as `null`. */
  function RawOrNull(raw: Bytes): Json {
    if |raw| == 0 then JNull else JRaw(raw)
  }

  /** Reads back a raw member: absent or `null` is the empty raw message. */
  function RawMember(ms: map<string, Json>, key: string): Option<Bytes> {
    if key !in ms then Some([])
    else match ms[key]
      case JNull => Some([])
      case JRaw(b) => Some(b)
      case _ => None
  }

  function Int64Member(ms: map<string, Json>, key: string): Option<Int64> {
    if key in ms && ms[key].JInt? && MinInt64 <= ms[key].i <= MaxInt64 then Some(ms[key].i) else None
  }

  function StringMember(ms: map<string, Json>, key: string): Option<string> {
    if key in ms && ms[key].JString? then Some(ms[key].s) else None
  }

  function OptionalMember(ms: map<string, Json>, key: string): Option<Json> {
    if key in ms then Some(ms[key]) else None
  }

  function EncodeErrorInner(e: JsonRpcErrorInner): (j: Json)
    ensures ObjectKeys(j) == {"code", "message"} + (if e.data.Some? then {"data"} else {})
    ensures DecodeErrorInner(j) == Some(e)
  {
    var ms := map["code" := JInt(e.code), "message" := JString(e.message)];
    JObject(if e.data.Some? then ms["data" := e.data.value] else ms)
  }

  function DecodeErrorInner(j: Json): Option<JsonRpcErrorInner> {
    if !j.JObject? then None
    else
      match (Int64Member(j.members, "code"), StringMember(j.members, "message"))
      case (Some(code), Some(message)) => Some(JsonRpcErrorInner(code, OptionalMember(j.members, "data"), message))
      case _ => None
  }

  function EncodeError(e: JsonRpcError): (j: Json)
    ensures ObjectKeys(j) == {"error", "id", "jsonrpc"}
    ensures DecodeError(j) == Some(e)
  {
    JObject(map["error" := EncodeErrorInner(e.error), "id" := JInt(e.id), "jsonrpc" := JString(e.jsonrpc)])
  }

  function DecodeError(j: Json): Option<JsonRpcError> {
    if !j.JObject? then None
    else
      var ms := j.members;
      match (OptionalMember(ms, "error"), Int64Member(ms, "id"), StringMember(ms, "jsonrpc"))
      case (Some(inner), Some(id), Some(v)) =>
        (match DecodeErrorInner(inner)
         case Some(e) => Some(JsonRpcError(e, id, v))
         case None => None)
      case _ => None
  }

  function EncodeRequest(r: JsonRpcRequest): (j: Json)
    ensures ObjectKeys(j) == {"id", "jsonrpc", "method"} + (if |r.params| > 0 then {"params"} else {})
    ensures DecodeRequest(j) == Some(r)
  {
    JObject(OmitEmpty(map["id" := JInt(r.id), "jsonrpc" := JString(r.jsonrpc), "method" := JString(r.methodName)],
                      "params", r.params))
  }

  function DecodeRequest(j: Json): Option<JsonRpcRequest> {
    if !j.JObject? then None
    else
      var ms := j.members;
      match (Int64Member(ms, "id"), StringMember(ms, "jsonrpc"), StringMember(ms, "method"), RawMember(ms, "params"))
      case (Some(id), Some(v), Some(name), Some(params)) => Some(JsonRpcRequest(id, v, name, params))
      case _ => None
  }

  function EncodeNotification(n: JsonRpcNotification): (j: Json)
    ensures ObjectKeys(j) == {"jsonrpc", "method"} + (if |n.params| > 0 then {"params"} else {})
    ensures DecodeNotification(j) == Some(n)
  {
    JObject(OmitEmpty(map["jsonrpc" := JString(n.jsonrpc), "method" := JString(n.methodName)], "params", n.params))
  }

  function DecodeNotification(j: Json): Option<JsonRpcNotification> {
    if !j.JObject? then None
    else
      var ms := j.members;
      match (StringMember(ms, "jsonrpc"), StringMember(ms, "method"), RawMember(ms, "params"))
      case (Some(v), Some(name), Some(params)) => Some(JsonRpcNotification(v, name, params))
      case _ => None
  }

  function EncodeResponse(r: JsonRpcResponse): (j: Json)
    ensures ObjectKeys(j) == {"id", "jsonrpc", "result"}
    ensures DecodeResponse(j) == Some(r)
  {
    JObject(map["id" := JInt(r.id), "jsonrpc" := JString(r.jsonrpc), "result" := RawOrNull(r.result)])
  }

  function DecodeResponse(j: Json): Option<JsonRpcResponse> {
    if !j.JObject? then None
    else
      var ms := j.members;
      match (Int64Member(ms, "id"), StringMember(ms, "jsonrpc"), RawMember(ms, "result"))
      case (Some(id), Some(v), Some(result)) => Some(JsonRpcResponse(id, v, result))
      case _ => None
  }

  // ---------------------------------------------------------------- the tagged union

  datatype Kind = RequestKind | NotificationKind | ResponseKind | ErrorKind

  const RequestType: string := "request"
  const NotificationType: string := "notification"
  const ResponseType: string := "response"
  const ErrorType: string := "error"

  function TypeTag(k: Kind): string {
    match k
    case RequestKind => RequestType
    case NotificationKind => NotificationType
    case ResponseKind => ResponseType
    case ErrorKind => ErrorType
  }

  /** The kind a `Type` string names, if it names one of the four. */
  function KindOfTag(typ: string): (k: Option<Kind>)
    ensures k.Some? ==> TypeTag(k.value) == typ
    ensures k.None? ==> forall kind :: TypeTag(kind) != typ
  {
    if typ == RequestType then Some(RequestKind)
    else if typ == NotificationType then Some(NotificationKind)
    else if typ == ResponseType then Some(ResponseKind)
    else if typ == ErrorType then Some(ErrorKind)
    else None
  }

  /** `BaseJsonRpcMessage`: a tag and four nilable payload fields. */
  datatype BaseMessage = BaseMessage(
    typ: string,
    request: Option<JsonRpcRequest>,
    notification: Option<JsonRpcNotification>,
    response: Option<JsonRpcResponse>,
    error: Option<JsonRpcError>)

  /** The tag names `k` and the payload of kind `k` is the only non-nil one. */
  predicate CarriesOnly(m: BaseMessage, k: Kind) {
    && m.typ == TypeTag(k)
    && (m.request.Some? <==> k == RequestKind)
    && (m.notification.Some? <==> k == NotificationKind)
    && (m.response.Some? <==> k == ResponseKind)
    && (m.error.Some? <==> k == ErrorKind)
  }

  predicate WellFormed(m: BaseMessage) {
    KindOfTag(m.typ).Some? && CarriesOnly(m, KindOfTag(m.typ).value)
  }

  datatype MarshalError = UnknownMessageType  // "unknown message type, couldn't marshal"

  /**
   * `MarshalJSON`: encodes the payload the tag names (a nil payload encodes as `null`), and
   * fails for any other tag. The other three payloads are never looked at.
   */
  function Marshal(m: BaseMessage): (r: Result<Json, MarshalError>)
    ensures r.Failure? <==> KindOfTag(m.typ).None?
    ensures m.typ == RequestType ==> r.Success? && DecodeRequest(r.value) == m.request
    ensures m.typ == NotificationType ==> r.Success? && DecodeNotification(r.value) == m.notification
    ensures m.typ == ResponseType ==> r.Success? && DecodeResponse(r.value) == m.response
    ensures m.typ == ErrorType ==> r.Success? && DecodeError(r.value) == m.error
  {
    if m.typ == RequestType then
      Success(if m.request.Some? then EncodeRequest(m.request.value) else JNull)
    else if m.typ == NotificationType then
      Success(if m.notification.Some? then EncodeNotification(m.notification.value) else JNull)
    else if m.typ == ResponseType then
      Success(if m.response.Some? then EncodeResponse(m.response.value) else JNull)
    else if m.typ == ErrorType then
      Success(if m.error.Some? then EncodeError(m.error.value) else JNull)
    else
      Failure(UnknownMessageType)
  }

  // ---------------------------------------------------------------- constructors

  function NewBaseMessageNotification(n: JsonRpcNotification): (m: BaseMessage)
    ensures CarriesOnly(m, NotificationKind) && m.notification == Some(n)
  {
    BaseMessage(NotificationType, None, Some(n), None, None)
  }

  function NewBaseMessageRequest(r: JsonRpcRequest): (m: BaseMessage)
    ensures CarriesOnly(m, RequestKind) && m.request == Some(r)
  {
    BaseMessage(RequestType, Some(r), None, None, None)
  }

  function NewBaseMessageResponse(r: JsonRpcResponse): (m: BaseMessage)
    ensures CarriesOnly(m, ResponseKind) && m.response == Some(r)
  {
    BaseMessage(ResponseType, None, None, Some(r), None)
  }

  /** Stores a field-by-field copy of its argument rather than the argument itself. */
  function NewBaseMessageError(e: JsonRpcError): (m: BaseMessage)
    ensures CarriesOnly(m, ErrorKind)
    ensures m.error == Some(JsonRpcError(e.error, e.id, e.jsonrpc))
  {
    BaseMessage(ErrorType, None, None, None, Some(JsonRpcError(e.error, e.id, e.jsonrpc)))
  }

  /** The message the constructor for `k` builds from each candidate payload. */
  function Construct(k: Kind, r: JsonRpcRequest, n: JsonRpcNotification, s: JsonRpcResponse, e: JsonRpcError): BaseMessage {
    match k
    case RequestKind => NewBaseMessageRequest(r)
    case NotificationKind => NewBaseMessageNotification(n)
    case ResponseKind => NewBaseMessageResponse(s)
    case ErrorKind => NewBaseMessageError(e)
  }

  // ---------------------------------------------------------------- properties

  /** Every well-formed message is what its kind's constructor builds from its payload. */
  lemma WellFormedIsConstructed(m: BaseMessage)
    requires WellFormed(m)
    ensures m.typ == RequestType ==> m == NewBaseMessageRequest(m.request.value)
    ensures m.typ == NotificationType ==> m == NewBaseMessageNotification(m.notification.value)
    ensures m.typ == ResponseType ==> m == NewBaseMessageResponse(m.response.value)
    ensures m.typ == ErrorType ==> m == NewBaseMessageError(m.error.value)
  {
  }

  /** A well-formed message, hence any constructor-built one, never takes the error branch. */
  lemma WellFormedMarshals(m: BaseMessage)
    requires WellFormed(m)
    ensures Marshal(m).Success?
    ensures Marshal(m).value.JObject?
  {
    var k := KindOfTag(m.typ).value;
    match k
    case RequestKind => assert Marshal(m) == Success(EncodeRequest(m.request.value));
    case NotificationKind => assert Marshal(m) == Success(EncodeNotification(m.notification.value));
    case ResponseKind => assert Marshal(m) == Success(EncodeResponse(m.response.value));
    case ErrorKind => assert Marshal(m) == Success(EncodeError(m.error.value));
  }

  /** The constructors never build a message that fails to marshal. */
  lemma ConstructedMessagesMarshal(k: Kind, r: JsonRpcRequest, n: JsonRpcNotification, s: JsonRpcResponse, e: JsonRpcError)
    ensures WellFormed(Construct(k, r, n, s, e))
    ensures Marshal(Construct(k, r, n, s, e)).Success?
  {
    WellFormedMarshals(Construct(k, r, n, s, e));
  }

  /** A notification encoding has no `id`; request, response and error encodings always do. */
  lemma IdOnlyOnCorrelatedKinds(r: JsonRpcRequest, n: JsonRpcNotification, s: JsonRpcResponse, e: JsonRpcError)
    ensures "id" !in ObjectKeys(EncodeNotification(n))
    ensures "id" in ObjectKeys(EncodeRequest(r))
    ensures "id" in ObjectKeys(EncodeResponse(s))
    ensures "id" in ObjectKeys(EncodeError(e))
  {
  }

  /** `params` is omitted when empty, `result` is always present, `error.data` only when set. */
  lemma OptionalMembers(r: JsonRpcRequest, n: JsonRpcNotification, s: JsonRpcResponse, e: JsonRpcErrorInner)
    ensures "params" in ObjectKeys(EncodeRequest(r)) <==> |r.params| > 0
    ensures "params" in ObjectKeys(EncodeNotification(n)) <==> |n.params| > 0
    ensures "result" in ObjectKeys(EncodeResponse(s))
    ensures "data" in ObjectKeys(EncodeErrorInner(e)) <==> e.data.Some?
  {
  }
}
