/**
 * Decoding an inbound HTTP body. `encoding/json` is not modelled: a `Body` carries, beside its
 * bytes, what `json.Unmarshal` yields when the body is decoded into each of the four payload
 * structs (`None` when it returns an error). The transports try the shapes in fixed orders.
 */
module Shapes {
  import opened Wrappers
  import opened Messages

  datatype Body = Body(
    bytes: Bytes,
    asRequest: Option<JsonRpcRequest>,
    asNotification: Option<JsonRpcNotification>,
    asResponse: Option<JsonRpcResponse>,
    asError: Option<JsonRpcError>)

  predicate DecodesAs(b: Body, k: Kind) {
    match k
    case RequestKind => b.asRequest.Some?
    case NotificationKind => b.asNotification.Some?
    case ResponseKind => b.asResponse.Some?
    case ErrorKind => b.asError.Some?
  }

  /** The message the transport hands on when `b` decodes as `k`, built by that kind's constructor. */
  function Decoded(b: Body, k: Kind): (m: BaseMessage)
    requires DecodesAs(b, k)
    ensures CarriesOnly(m, k)
  {
    match k
    case RequestKind => NewBaseMessageRequest(b.asRequest.value)
    case NotificationKind => NewBaseMessageNotification(b.asNotification.value)
    case ResponseKind => NewBaseMessageResponse(b.asResponse.value)
    case ErrorKind => NewBaseMessageError(b.asError.value)
  }

  /** The server side tries Request, Notification, Response, Error (transport/http/common.go, http.go). */
  const ServerOrder: seq<Kind> := [RequestKind, NotificationKind, ResponseKind, ErrorKind]

  /** The client side tries Response, Error, Notification, Request (transport/http/http_client.go). */
  const ClientOrder: seq<Kind> := [ResponseKind, ErrorKind, NotificationKind, RequestKind]

  /** The position, at `from` or later, of the first kind of `order` that `b` decodes as. */
  function FirstShapeFrom(b: Body, order: seq<Kind>, from: nat): (r: Option<nat>)
    requires from <= |order|
    ensures r.Some? ==> from <= r.value < |order| && DecodesAs(b, order[r.value])
    ensures r.Some? ==> forall i :: from <= i < r.value ==> !DecodesAs(b, order[i])
    ensures r.None? ==> forall i :: from <= i < |order| ==> !DecodesAs(b, order[i])
    decreases |order| - from
  {
    if from == |order| then None
    else if DecodesAs(b, order[from]) then Some(from)
    else FirstShapeFrom(b, order, from + 1)
  }

  /** The first kind of `order` that `b` decodes as. */
  function FirstShape(b: Body, order: seq<Kind>): (r: Option<Kind>)
    ensures r.Some? <==> exists k :: k in order && DecodesAs(b, k)
    ensures r.Some? ==> r.value in order && DecodesAs(b, r.value)
  {
    match FirstShapeFrom(b, order, 0)
    case Some(i) => Some(order[i])
    case None => None
  }
}
