/**
 * `BaseTransport` of transport/http/common.go: the stateless-HTTP bridge that the framework
 * adapters call. `HandleMessage` is split at its blocking channel receive into
 * `BeginMessage` (allocate a slot, rewrite the request id, call the message handler) and
 * `CompleteMessage` (take the reply, delete the slot, restore the id). Callbacks are recorded
 * in logs instead of being run.
 */
module HttpCommon {
  import opened Wrappers
  import opened Messages
  import opened Shapes
  import opened Bridge

  class BaseTransport {
    var messageHandler: Option<HandlerId>
    var errorHandler: Option<HandlerId>
    var closeHandler: Option<HandlerId>
    /** `ResponseMap`: one slot per body being served. */
    var responseMap: map<int, Slot>
    /** Calls of the message handler, oldest first. */
    var handled: seq<Delivery>
    /** Calls of the error handler, oldest first. */
    var reported: seq<Report>
    /** Calls of the close handler, oldest first. */
    var closed: seq<HandlerId>

    /** Slot keys come from the probe, and only response-carrying replies sit in slots. */
    ghost predicate Valid()
      reads this
    {
      && KeysInRange(responseMap)
      && forall k :: k in responseMap && responseMap[k].Delivered? ==> responseMap[k].reply.response.Some?
    }

    /** `NewBaseTransport`. */
    constructor ()
      ensures Valid()
      ensures responseMap == map[]
      ensures messageHandler.None? && errorHandler.None? && closeHandler.None?
      ensures handled == [] && reported == [] && closed == []
    {
      messageHandler, errorHandler, closeHandler := None, None, None;
      responseMap := map[];
      handled, reported, closed := [], [], [];
    }

    /**
     * Hands a reply to the slot its response id names; with no such slot it fails and leaves
     * the table as it was.
     */
    method Send(message: BaseMessage) returns (err: Option<TransportError>)
      requires Valid()
      requires message.response.Some?
      requires message.response.value.id in responseMap ==> responseMap[message.response.value.id].Waiting?
      modifies this`responseMap
      ensures Valid()
      ensures var key := message.response.value.id;
        if key in old(responseMap) then
          err.None? && responseMap == old(responseMap)[key := Delivered(message)]
        else
          err == Some(NoResponseChannel(key)) && responseMap == old(responseMap)
    {
      var key := message.response.value.id;
      if key !in responseMap {
        return Some(NoResponseChannel(key));
      }
      responseMap := responseMap[key := Delivered(message)];
      err := None;
    }

    /** Calls the close handler when one is set; never fails. */
    method Close() returns (err: Option<TransportError>)
      modifies this`closed
      ensures err.None?
      ensures closed == old(closed) + (if closeHandler.Some? then [closeHandler.value] else [])
    {
      if closeHandler.Some? {
        closed := closed + [closeHandler.value];
      }
      err := None;
    }

    method SetCloseHandler(handler: Option<HandlerId>)
      modifies this`closeHandler
      ensures closeHandler == handler
    {
      closeHandler := handler;
    }

    method SetErrorHandler(handler: Option<HandlerId>)
      modifies this`errorHandler
      ensures errorHandler == handler
    {
      errorHandler := handler;
    }

    method SetMessageHandler(handler: Option<HandlerId>)
      modifies this`messageHandler
      ensures messageHandler == handler
    {
      messageHandler := handler;
    }

    /**
     * The first half of `HandleMessage`: a slot is allocated for every body, whatever it
     * decodes as, at the smallest free key below the probe limit; then at most one handler
     * call, for the first shape that decodes.
     */
    method BeginMessage(body: Body) returns (p: Pending)
      requires Valid()
      modifies this`responseMap, this`handled
      ensures Valid()
      ensures 0 <= p.key <= ProbeLimit
      ensures forall k :: 0 <= k < p.key ==> k in old(responseMap)
      ensures p.key < ProbeLimit ==> p.key !in old(responseMap)
      ensures responseMap == old(responseMap)[p.key := Waiting]
      ensures p.prevId == Dispatch(body, p.key).prevId
      ensures handled == old(handled) + Deliveries(messageHandler, Dispatch(body, p.key))
    {
      var key := ProbeFreeKey(responseMap);
      responseMap := responseMap[key := Waiting];
      var d := DecodeInOrder(body, key);
      if messageHandler.Some? && d.message.Some? {
        handled := handled + [Delivery(messageHandler.value, d.message.value)];
      }
      p := Pending(key, d.prevId);
    }

    /**
     * The second half of `HandleMessage`, run once `Send` has filled the slot: the slot is
     * deleted and, for a request, the original id is put back on the reply.
     */
    method CompleteMessage(p: Pending) returns (reply: BaseMessage)
      requires Valid()
      requires p.key in responseMap && responseMap[p.key].Delivered?
      modifies this`responseMap
      ensures Valid()
      ensures responseMap == old(responseMap) - {p.key}
      ensures reply == Restore(old(responseMap[p.key].reply), p.prevId)
    {
      var taken := responseMap[p.key].reply;
      responseMap := responseMap - {p.key};
      reply := Restore(taken, p.prevId);
    }

    /** A failed read is wrapped, and reported to the error handler when one is set. */
    method ReadBody(read: Result<Bytes, string>) returns (r: Result<Bytes, TransportError>)
      modifies this`reported
      ensures read.Success? ==> r == Success(read.value) && reported == old(reported)
      ensures read.Failure? ==> r == Failure(ReadBodyFailed(read.error))
      ensures read.Failure? ==> reported == old(reported) + Reports(errorHandler, ReadBodyFailed(read.error))
    {
      if read.Failure? {
        reported := reported + Reports(errorHandler, ReadBodyFailed(read.error));
        return Failure(ReadBodyFailed(read.error));
      }
      r := Success(read.value);
    }
  }

  /**
   * One request through the bridge: the engine answers the id it was shown, the caller gets
   * its own id back, and the slot table returns to its prior contents.
   */
  method RequestRoundTrip(t: BaseTransport, body: Body, result: Bytes, jsonrpc: string) returns (reply: BaseMessage)
    requires t.Valid() && body.asRequest.Some?
    requires exists k :: 0 <= k < ProbeLimit && k !in t.responseMap
    modifies t
    ensures t.Valid()
    ensures t.responseMap == old(t.responseMap)
    ensures reply == NewBaseMessageResponse(JsonRpcResponse(body.asRequest.value.id, jsonrpc, result))
  {
    ghost var before := t.responseMap;
    var p := t.BeginMessage(body);
    ProbedKeyIsFresh(before, p.key, Waiting);
    var err := t.Send(NewBaseMessageResponse(JsonRpcResponse(p.key, jsonrpc, result)));
    reply := t.CompleteMessage(p);
    assert t.responseMap == before;
  }

  /**
   * Two bodies in flight at once, answered in the opposite order: they get different slots
   * (0 and 1, on an empty table), each reply reaches its own slot, each caller gets its own id
   * back, and the table ends as it began.
   */
  method TwoRequestsInFlight(t: BaseTransport, first: Body, second: Body, r1: Bytes, r2: Bytes)
    returns (key1: RequestId, key2: RequestId, reply1: BaseMessage, reply2: BaseMessage)
    requires t.Valid() && t.responseMap == map[]
    requires first.asRequest.Some? && second.asRequest.Some?
    modifies t
    ensures key1 != key2 && key1 == 0 && key2 == 1
    ensures t.Valid() && t.responseMap == map[]
    ensures reply1.response == Some(JsonRpcResponse(first.asRequest.value.id, "2.0", r1))
    ensures reply2.response == Some(JsonRpcResponse(second.asRequest.value.id, "2.0", r2))
  {
    assert 0 !in t.responseMap;
    var p1 := t.BeginMessage(first);
    ProbedKeyIsFresh(map[], p1.key, Waiting);
    ghost var between := t.responseMap;
    var w := if p1.key == 0 then 1 else 0;
    assert w !in between;
    var p2 := t.BeginMessage(second);
    ProbedKeyIsFresh(between, p2.key, Waiting);
    var e2 := t.Send(NewBaseMessageResponse(JsonRpcResponse(p2.key, "2.0", r2)));
    reply2 := t.CompleteMessage(p2);
    var e1 := t.Send(NewBaseMessageResponse(JsonRpcResponse(p1.key, "2.0", r1)));
    reply1 := t.CompleteMessage(p1);
    key1, key2 := p1.key, p2.key;
  }
}
