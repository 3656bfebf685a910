/**
 * The stateless-HTTP correlation ("slot") table shared by `BaseTransport` (transport/http/common.go)
 * and `HTTPTransport` (transport/http/http.go), which carry two copies of the same code.
 *
 * Every inbound body gets a slot: the smallest key not in the table, probing no higher than
 * 1000000. A request's id is rewritten to the slot key before the message handler sees it, and
 * the original id is kept by the goroutine serving the body. The reply later passed to `Send`
 * names the slot by its response id; the serving goroutine takes it, deletes the slot and
 * puts the original id back. The blocking wait is split here into a begin step and a
 * complete step; `Pending` is what the serving goroutine keeps on its stack between the two.
 */
module Bridge {
  import opened Wrappers
  import opened Messages
  import opened Shapes

  /** The probe stops at this key; when every smaller key is taken, this key is used. */
  const ProbeLimit: int := 1000000

  /** A slot: the reply channel before and after `Send` has put a reply in it. */
  datatype Slot = Waiting | Delivered(reply: BaseMessage)

  /** What the goroutine serving one body remembers while it blocks: its key and saved id. */
  datatype Pending = Pending(key: RequestId, prevId: Option<RequestId>)

  /** The message-handler call a body causes, if any, and the id that must be restored. */
  datatype Dispatched = Dispatched(message: Option<BaseMessage>, prevId: Option<RequestId>)

  /** One call of an installed message handler. */
  datatype Delivery = Delivery(handler: HandlerId, message: BaseMessage)

  datatype TransportError =
    | NoResponseChannel(key: RequestId)      // "no response channel found for key: %d"
    | ReadBodyFailed(cause: string)          // "failed to read request body: %w"
    | MarshalResponseFailed(reason: MarshalError)  // "failed to marshal response: %w"

  /** One call of an installed error handler. */
  datatype Report = Report(handler: HandlerId, error: TransportError)

  /** The slot keys the probe can produce. */
  ghost predicate KeysInRange<V>(table: map<int, V>) {
    forall k :: k in table ==> 0 <= k <= ProbeLimit
  }

  /**
   * The probe loop: the smallest non-negative key that is not in `table`, or `ProbeLimit`
   * when every key below it is taken (that key may itself be taken already).
   */
  method ProbeFreeKey<V>(table: map<int, V>) returns (key: int)
    ensures 0 <= key <= ProbeLimit
    ensures forall k :: 0 <= k < key ==> k in table
    ensures key < ProbeLimit ==> key !in table
  {
    key := 0;
    while key < ProbeLimit
      invariant 0 <= key <= ProbeLimit
      invariant forall k :: 0 <= k < key ==> k in table
    {
      if key !in table {
        break;
      }
      key := key + 1;
    }
  }

  /** The key the probe picks is free unless the table already holds every key below the limit. */
  lemma ProbedKeyIsFresh<V>(table: map<int, V>, key: int, v: V)
    requires 0 <= key <= ProbeLimit
    requires key < ProbeLimit ==> key !in table
    requires exists k :: 0 <= k < ProbeLimit && k !in table
    requires forall k :: 0 <= k < key ==> k in table
    ensures key !in table
    ensures |table[key := v]| == |table| + 1
  {
    var free :| 0 <= free < ProbeLimit && free !in table;
    assert key <= free;
  }

  /**
   * The handler call a body causes once slot `key` is allocated: the first of Request,
   * Notification, Response, Error that the body decodes as; a request is passed on with
   * its id replaced by the slot key, and its original id is the one to restore.
   */
  function Dispatch(b: Body, key: RequestId): (d: Dispatched)
    ensures d.message.Some? <==> FirstShape(b, ServerOrder).Some?
    ensures d.prevId.Some? <==> b.asRequest.Some?
    ensures b.asRequest.Some? ==> d.prevId.value == b.asRequest.value.id
    ensures b.asRequest.Some? ==> d.message == Some(NewBaseMessageRequest(b.asRequest.value.(id := key)))
    ensures b.asRequest.None? && d.message.Some? ==> d.message == Some(Decoded(b, FirstShape(b, ServerOrder).value))
  {
    if b.asRequest.Some? then
      var r := b.asRequest.value;
      Dispatched(Some(NewBaseMessageRequest(r.(id := key))), Some(r.id))
    else if b.asNotification.Some? then
      Dispatched(Some(NewBaseMessageNotification(b.asNotification.value)), None)
    else if b.asResponse.Some? then
      Dispatched(Some(NewBaseMessageResponse(b.asResponse.value)), None)
    else if b.asError.Some? then
      Dispatched(Some(NewBaseMessageError(b.asError.value)), None)
    else
      Dispatched(None, None)
  }

  /**
   * The decode chain as the transports run it: each shape is tried only while no earlier one
   * has decoded (the `deserialized` flag); a request's id is saved and then overwritten.
   */
  method DecodeInOrder(b: Body, key: RequestId) returns (d: Dispatched)
    ensures d == Dispatch(b, key)
  {
    var prevId: Option<RequestId> := None;
    var message: Option<BaseMessage> := None;
    var deserialized := false;
    if b.asRequest.Some? {
      deserialized := true;
      var request := b.asRequest.value;
      prevId := Some(request.id);
      request := request.(id := key);
      message := Some(NewBaseMessageRequest(request));
    }
    if !deserialized && b.asNotification.Some? {
      deserialized := true;
      message := Some(NewBaseMessageNotification(b.asNotification.value));
    }
    if !deserialized && b.asResponse.Some? {
      deserialized := true;
      message := Some(NewBaseMessageResponse(b.asResponse.value));
    }
    if !deserialized && b.asError.Some? {
      deserialized := true;
      message := Some(NewBaseMessageError(b.asError.value));
    }
    d := Dispatched(message, prevId);
  }

  /** The handler calls `Dispatch` adds to a log when `handler` is the installed handler. */
  function Deliveries(handler: Option<HandlerId>, d: Dispatched): (s: seq<Delivery>)
    ensures |s| <= 1
    ensures |s| == 1 <==> handler.Some? && d.message.Some?
    ensures |s| == 1 ==> s[0] == Delivery(handler.value, d.message.value)
  {
    if handler.Some? && d.message.Some? then [Delivery(handler.value, d.message.value)] else []
  }

  /** The error-handler calls reporting `e` when `handler` is the installed error handler. */
  function Reports(handler: Option<HandlerId>, e: TransportError): (s: seq<Report>)
    ensures |s| == 1 <==> handler.Some?
    ensures |s| <= 1 && (|s| == 1 ==> s[0] == Report(handler.value, e))
  {
    if handler.Some? then [Report(handler.value, e)] else []
  }

  /** Puts the saved id back on the reply's response payload; nothing else changes. */
  function Restore(reply: BaseMessage, prevId: Option<RequestId>): (r: BaseMessage)
    requires prevId.Some? ==> reply.response.Some?
    ensures prevId.None? ==> r == reply
    ensures prevId.Some? ==> r.response.Some? && r.response.value.id == prevId.value
    ensures prevId.Some? ==> r.(response := reply.response) == reply
    ensures prevId.Some? ==> r.response.value.(id := reply.response.value.id) == reply.response.value
  {
    if prevId.Some? then reply.(response := Some(reply.response.value.(id := prevId.value))) else reply
  }

  /** A request dispatched under key `key` and answered by a response to that key gets its own id back. */
  lemma RestoreUndoesRewrite(b: Body, key: RequestId, result: Bytes, jsonrpc: string)
    requires b.asRequest.Some?
    ensures var d := Dispatch(b, key);
      var reply := NewBaseMessageResponse(JsonRpcResponse(d.message.value.request.value.id, jsonrpc, result));
      Restore(reply, d.prevId).response.value.id == b.asRequest.value.id
  {
  }
}
