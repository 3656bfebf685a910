/**
 * `HTTPTransport` of transport/http/http.go: a stateless HTTP server transport. Each POST body
 * is served by `handleRequest`, which carries its own copy of the slot-table code; its blocking
 * receive is split into `BeginRequest` and `CompleteRequest` as for `BaseTransport`.
 * `net/http` is modelled by the reply a handler writes: a status, the headers it sets and a body.
 */
module HttpServer {
  import opened Wrappers
  import opened Messages
  import opened Shapes
  import opened Bridge

  const DefaultAddr: string := ":8080"

  const StatusOK: int := 200
  const StatusBadRequest: int := 400
  const StatusMethodNotAllowed: int := 405
  const StatusInternalServerError: int := 500

  /** The `http.Server` that `Start` creates: its address and the one path it routes. */
  datatype ServerConfig = ServerConfig(addr: string, endpoint: string)

  datatype HttpBody = TextBody(text: string) | JsonBody(json: Json)

  /** What the handler writes to the `ResponseWriter`. */
  datatype HttpReply = HttpReply(status: int, header: map<string, string>, body: HttpBody)

  /** `http.Error`: plain-text headers, the status, and the message followed by a newline. */
  function ErrorReply(status: int, message: string): (r: HttpReply)
    ensures r.status == status && r.body == TextBody(message + "\n")
    ensures r.header.Keys == {"Content-Type", "X-Content-Type-Options"}
    ensures r.header["Content-Type"] == "text/plain; charset=utf-8"
    ensures r.header["X-Content-Type-Options"] == "nosniff"
  {
    HttpReply(status, map["Content-Type" := "text/plain; charset=utf-8", "X-Content-Type-Options" := "nosniff"],
              TextBody(message + "\n"))
  }

  /** The handler either answers at once or has allocated a slot and waits on it. */
  datatype Begun = Answered(reply: HttpReply) | Blocked(pending: Pending)

  class HTTPTransport {
    var server: Option<ServerConfig>
    var endpoint: string
    var addr: string
    var messageHandler: Option<HandlerId>
    var errorHandler: Option<HandlerId>
    var closeHandler: Option<HandlerId>
    var responseMap: map<int, Slot>
    var handled: seq<Delivery>
    var reported: seq<Report>
    var closed: seq<HandlerId>

    ghost predicate Valid()
      reads this
    {
      && KeysInRange(responseMap)
      && forall k :: k in responseMap && responseMap[k].Delivered? ==> responseMap[k].reply.response.Some?
    }

    /** `NewHTTPTransport`: the default address and an empty slot table. */
    constructor (endpoint: string)
      ensures Valid()
      ensures this.endpoint == endpoint && addr == DefaultAddr && server.None?
      ensures responseMap == map[]
      ensures messageHandler.None? && errorHandler.None? && closeHandler.None?
      ensures handled == [] && reported == [] && closed == []
    {
      this.endpoint := endpoint;
      addr := DefaultAddr;
      server := None;
      messageHandler, errorHandler, closeHandler := None, None, None;
      responseMap := map[];
      handled, reported, closed := [], [], [];
    }

    method WithAddr(addr: string) returns (t: HTTPTransport)
      modifies this`addr
      ensures t == this && this.addr == addr
    {
      this.addr := addr;
      t := this;
    }

    /**
     * Creates the server for the current address and endpoint and returns what serving
     * returns (`serveResult`, the outcome of `ListenAndServe`).
     */
    method Start(serveResult: Option<string>) returns (err: Option<string>)
      modifies this`server
      ensures server == Some(ServerConfig(addr, endpoint))
      ensures err == serveResult
    {
      server := Some(ServerConfig(addr, endpoint));
      err := serveResult;
    }

    method Send(message: BaseMessage) returns (err: Option<TransportError>)
      requires Valid()
      requires message.response.Some?
      requires message.response.value.id in responseMap ==> responseMap[message.response.value.id].Waiting?
      modifies this`responseMap
      ensures Valid()
      ensures var key := message.response.value.id;
        if key in old(responseMap) then
          err.None? && responseMap == old(responseMap)[key := Delivered(message)]
        else
          err == Some(NoResponseChannel(key)) && responseMap == old(responseMap)
    {
      var key := message.response.value.id;
      if key !in responseMap {
        return Some(NoResponseChannel(key));
      }
      responseMap := responseMap[key := Delivered(message)];
      err := None;
    }

    /**
     * When a server exists and closing it fails (`serverClose`), that error is returned and
     * the close handler is not called; otherwise the close handler, if set, is called.
     */
    method Close(serverClose: Option<string>) returns (err: Option<string>)
      modifies this`closed
      ensures server.Some? && serverClose.Some? ==> err == serverClose && closed == old(closed)
      ensures !(server.Some? && serverClose.Some?) ==>
        err.None? && closed == old(closed) + (if closeHandler.Some? then [closeHandler.value] else [])
    {
      if server.Some? && serverClose.Some? {
        return serverClose;
      }
      if closeHandler.Some? {
        closed := closed + [closeHandler.value];
      }
      err := None;
    }

    method SetCloseHandler(handler: Option<HandlerId>)
      modifies this`closeHandler
      ensures closeHandler == handler
    {
      closeHandler := handler;
    }

    method SetErrorHandler(handler: Option<HandlerId>)
      modifies this`errorHandler
      ensures errorHandler == handler
    {
      errorHandler := handler;
    }

    method SetMessageHandler(handler: Option<HandlerId>)
      modifies this`messageHandler
      ensures messageHandler == handler
    {
      messageHandler := handler;
    }

    /**
     * `handleRequest` up to its blocking receive. `read` is the outcome of reading the body.
     * A method other than POST is answered with 405 before the body is read; a read failure
     * with 400 and a report; otherwise a slot is allocated and the body is dispatched.
     */
    method BeginRequest(httpMethod: string, read: Result<Body, string>) returns (b: Begun)
      requires Valid()
      modifies this`responseMap, this`handled, this`reported
      ensures Valid()
      ensures httpMethod != "POST" ==>
        && b == Answered(ErrorReply(StatusMethodNotAllowed, "Only POST method is supported"))
        && responseMap == old(responseMap) && handled == old(handled) && reported == old(reported)
      ensures httpMethod == "POST" && read.Failure? ==>
        && b == Answered(ErrorReply(StatusBadRequest, "Failed to read request body"))
        && reported == old(reported) + Reports(errorHandler, ReadBodyFailed(read.error))
        && responseMap == old(responseMap) && handled == old(handled)
      ensures httpMethod == "POST" && read.Success? ==>
        && b.Blocked?
        && 0 <= b.pending.key <= ProbeLimit
        && (forall k :: 0 <= k < b.pending.key ==> k in old(responseMap))
        && (b.pending.key < ProbeLimit ==> b.pending.key !in old(responseMap))
        && responseMap == old(responseMap)[b.pending.key := Waiting]
        && b.pending.prevId == Dispatch(read.value, b.pending.key).prevId
        && handled == old(handled) + Deliveries(messageHandler, Dispatch(read.value, b.pending.key))
        && reported == old(reported)
    {
      if httpMethod != "POST" {
        return Answered(ErrorReply(StatusMethodNotAllowed, "Only POST method is supported"));
      }
      if read.Failure? {
        reported := reported + Reports(errorHandler, ReadBodyFailed(read.error));
        return Answered(ErrorReply(StatusBadRequest, "Failed to read request body"));
      }
      var key := ProbeFreeKey(responseMap);
      responseMap := responseMap[key := Waiting];
      var d := DecodeInOrder(read.value, key);
      if messageHandler.Some? && d.message.Some? {
        handled := handled + [Delivery(messageHandler.value, d.message.value)];
      }
      b := Blocked(Pending(key, d.prevId));
    }

    /**
     * `handleRequest` after its receive: the slot is deleted, the original id restored, and
     * the reply marshalled; a marshal failure is answered with 500 and reported, success with
     * the JSON body under `Content-Type: application/json`.
     */
    method CompleteRequest(p: Pending) returns (reply: HttpReply)
      requires Valid()
      requires p.key in responseMap && responseMap[p.key].Delivered?
      modifies this`responseMap, this`reported
      ensures Valid()
      ensures responseMap == old(responseMap) - {p.key}
      ensures var out := Marshal(Restore(old(responseMap[p.key].reply), p.prevId));
        if out.Failure? then
          && reply == ErrorReply(StatusInternalServerError, "Failed to marshal response")
          && reported == old(reported) + Reports(errorHandler, MarshalResponseFailed(out.error))
        else
          && reply == HttpReply(StatusOK, map["Content-Type" := "application/json"], JsonBody(out.value))
          && reported == old(reported)
    {
      var taken := responseMap[p.key].reply;
      responseMap := responseMap - {p.key};
      var restored := Restore(taken, p.prevId);
      var out := Marshal(restored);
      if out.Failure? {
        reported := reported + Reports(errorHandler, MarshalResponseFailed(out.error));
        return ErrorReply(StatusInternalServerError, "Failed to marshal response");
      }
      reply := HttpReply(StatusOK, map["Content-Type" := "application/json"], JsonBody(out.value));
    }
  }

  /**
   * One POST carrying a request, answered by the engine with a response to the id it was
   * shown: the caller receives 200 and the response under its own id, and the table returns
   * to its prior contents.
   */
  method PostRoundTrip(t: HTTPTransport, body: Body, result: Bytes) returns (reply: HttpReply)
    requires t.Valid() && body.asRequest.Some?
    requires exists k :: 0 <= k < ProbeLimit && k !in t.responseMap
    modifies t
    ensures t.Valid() && t.responseMap == old(t.responseMap)
    ensures reply.status == StatusOK
    ensures reply.header == map["Content-Type" := "application/json"]
    ensures reply.body == JsonBody(EncodeResponse(JsonRpcResponse(body.asRequest.value.id, "2.0", result)))
  {
    ghost var before := t.responseMap;
    var b := t.BeginRequest("POST", Success(body));
    var p := b.pending;
    ProbedKeyIsFresh(before, p.key, Waiting);
    var err := t.Send(NewBaseMessageResponse(JsonRpcResponse(p.key, "2.0", result)));
    reply := t.CompleteRequest(p);
    assert t.responseMap == before;
  }
}
