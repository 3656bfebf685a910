/**
 * `HTTPClientTransport` of transport/http/http_client.go: every outbound message is POSTed to
 * `baseURL + endpoint`, and the reply body, if any, is classified and handed to the message
 * handler. The HTTP exchange (`http.NewRequest`, `client.Do`, `io.ReadAll`) is an oracle
 * parameter of `Send`; the reply body comes with its four decode outcomes, as on the server.
 */
module HttpClient {
  import opened Wrappers
  import opened Messages
  import opened Shapes
  import opened Bridge
  import opened HeaderKeys

  const StatusOK: int := 200

  /**
   * The header loop of `Send`. Go ranges over a map in no fixed order, so each step picks
   * any key not yet set.
   */
  method BuildHeaders(stored: map<string, string>) returns (h: map<string, string>)
    ensures SetAfterDefault(stored, h)
  {
    h := map[ContentType := ApplicationJson];
    var rest := stored.Keys;
    ghost var done: set<string> := {};
    while rest != {}
      invariant rest + done == stored.Keys && rest !! done
      invariant h.Keys == {ContentType} + (set k | k in done :: Canonical(k))
      invariant forall c :: c in h ==>
          (exists k :: k in done && Canonical(k) == c && h[c] == stored[k])
          || (c == ContentType && h[c] == ApplicationJson && forall k :: k in done ==> Canonical(k) != ContentType)
      invariant forall k :: k in done && Unambiguous(stored, k) ==> h[Canonical(k)] == stored[k]
      invariant (forall k :: k in done ==> Canonical(k) != ContentType) ==> h[ContentType] == ApplicationJson
      decreases rest
    {
      var key :| key in rest;
      h := h[Canonical(key) := stored[key]];
      rest := rest - {key};
      done := done + {key};
    }
  }

  // ---------------------------------------------------------------- reply classification

  /** The outcome of building and performing the HTTP exchange. */
  datatype Exchange =
    | CreateFailed(cause: string)             // http.NewRequest failed
    | DoFailed(cause: string)                 // client.Do failed
    | ReadFailed(cause: string)               // io.ReadAll of the reply failed
    | Received(status: int, body: Body)

  /** What the reply is taken to be. */
  datatype Classified =
    | Rejected(text: Bytes, status: int)
    | EmptyReply
    | Deliver(message: BaseMessage)
    | Invalid(text: Bytes)

  /**
   * Reply classification after a completed exchange: any status but 200 is rejected with the
   * body and status; an empty body is accepted silently; otherwise the first of Response,
   * Error, Notification, Request that the body decodes as is delivered, and a body that is
   * none of them is invalid.
   */
  function ClassifyReply(status: int, body: Body): (c: Classified)
    ensures status != StatusOK <==> c.Rejected?
    ensures c.Rejected? ==> c == Rejected(body.bytes, status)
    ensures c == EmptyReply <==> status == StatusOK && |body.bytes| == 0
    ensures c.Deliver? <==> status == StatusOK && |body.bytes| > 0 && FirstShape(body, ClientOrder).Some?
    ensures c.Deliver? ==> c.message == Decoded(body, FirstShape(body, ClientOrder).value)
    ensures c.Invalid? <==> status == StatusOK && |body.bytes| > 0 && FirstShape(body, ClientOrder).None?
    ensures c.Invalid? ==> c.text == body.bytes
  {
    if status != StatusOK then Rejected(body.bytes, status)
    else if |body.bytes| == 0 then EmptyReply
    else if body.asResponse.Some? then Deliver(NewBaseMessageResponse(body.asResponse.value))
    else if body.asError.Some? then Deliver(NewBaseMessageError(body.asError.value))
    else if body.asNotification.Some? then Deliver(NewBaseMessageNotification(body.asNotification.value))
    else if body.asRequest.Some? then Deliver(NewBaseMessageRequest(body.asRequest.value))
    else Invalid(body.bytes)
  }

  /** A body that decodes both as a response and as a request reaches the handler as a response. */
  lemma ResponseShapeWins(body: Body)
    requires |body.bytes| > 0 && body.asResponse.Some?
    ensures ClassifyReply(StatusOK, body) == Deliver(NewBaseMessageResponse(body.asResponse.value))
  {
    assert ResponseKind in ClientOrder && DecodesAs(body, ResponseKind);
  }

  datatype SendError =
    | MarshalFailed(reason: MarshalError)    // "failed to marshal message: %w"
    | CreateRequestFailed(cause: string)     // "failed to create request: %w"
    | SendRequestFailed(cause: string)       // "failed to send request: %w"
    | ReadResponseFailed(cause: string)      // "failed to read response: %w"
    | ServerReturnedError(text: Bytes, status: int)  // "server returned error: %s (status: %d)"
    | InvalidResponse(text: Bytes)           // "received invalid response: %s"

  /** The error `Send` returns for a completed exchange, if any. */
  function ReplyError(c: Classified): (e: Option<SendError>)
    ensures e.None? <==> c.EmptyReply? || c.Deliver?
    ensures c.Rejected? ==> e == Some(ServerReturnedError(c.text, c.status))
    ensures c.Invalid? ==> e == Some(InvalidResponse(c.text))
  {
    match c
    case Rejected(text, status) => Some(ServerReturnedError(text, status))
    case EmptyReply => None
    case Deliver(_) => None
    case Invalid(text) => Some(InvalidResponse(text))
  }

  /** The request `Send` hands to the HTTP client. */
  datatype Outgoing = Outgoing(httpMethod: string, url: string, header: map<string, string>, body: Json)

  /** The HTTP client the transport uses; `None` is the default `http.Client`. */
  type ClientId = HandlerId

  class HTTPClientTransport {
    var baseURL: string
    var endpoint: string
    var client: Option<ClientId>
    var headers: map<string, string>
    var messageHandler: Option<HandlerId>
    var errorHandler: Option<HandlerId>
    var closeHandler: Option<HandlerId>
    /** Calls of the message handler, oldest first. */
    var handled: seq<Delivery>
    /** Calls of the close handler, oldest first. */
    var closed: seq<HandlerId>

    /** `NewHTTPClientTransport`: no base URL, the default client, no stored headers. */
    constructor (endpoint: string)
      ensures this.endpoint == endpoint && baseURL == "" && client.None? && headers == map[]
      ensures messageHandler.None? && errorHandler.None? && closeHandler.None?
      ensures handled == [] && closed == []
    {
      this.endpoint := endpoint;
      baseURL := "";
      client := None;
      headers := map[];
      messageHandler, errorHandler, closeHandler := None, None, None;
      handled, closed := [], [];
    }

    method WithClient(c: ClientId) returns (t: HTTPClientTransport)
      modifies this`client
      ensures t == this && client == Some(c)
    {
      client := Some(c);
      t := this;
    }

    method WithBaseURL(baseURL: string) returns (t: HTTPClientTransport)
      modifies this`baseURL
      ensures t == this && this.baseURL == baseURL
    {
      this.baseURL := baseURL;
      t := this;
    }

    /** Inserts or overwrites one stored header; every other entry is kept. */
    method WithHeader(key: string, value: string) returns (t: HTTPClientTransport)
      modifies this`headers
      ensures t == this && headers == old(headers)[key := value]
      ensures key in headers && headers[key] == value
      ensures forall k :: k in old(headers) && k != key ==> k in headers && headers[k] == old(headers)[k]
    {
      headers := headers[key := value];
      t := this;
    }

    /** Nothing to start for a stateless client. */
    method Start() returns (err: Option<SendError>)
      ensures err.None?
    {
      err := None;
    }

    /**
     * Marshals `message`, POSTs it to `baseURL + endpoint` with the built headers, and
     * classifies the reply of `exchange`; the handler is called at most once, for a
     * delivered reply. `sent` is the request built, if one was.
     */
    method Send(message: BaseMessage, exchange: Exchange) returns (err: Option<SendError>, sent: Option<Outgoing>)
      modifies this`handled
      ensures Marshal(message).Failure? ==>
        err == Some(MarshalFailed(Marshal(message).error)) && sent.None? && handled == old(handled)
      ensures Marshal(message).Success? && exchange.CreateFailed? ==>
        err == Some(CreateRequestFailed(exchange.cause)) && sent.None? && handled == old(handled)
      ensures Marshal(message).Success? && !exchange.CreateFailed? ==>
        && sent.Some?
        && sent.value.httpMethod == "POST" && sent.value.url == baseURL + endpoint
        && sent.value.body == Marshal(message).value
        && SetAfterDefault(headers, sent.value.header)
      ensures Marshal(message).Success? && exchange.DoFailed? ==>
        err == Some(SendRequestFailed(exchange.cause)) && handled == old(handled)
      ensures Marshal(message).Success? && exchange.ReadFailed? ==>
        err == Some(ReadResponseFailed(exchange.cause)) && handled == old(handled)
      ensures Marshal(message).Success? && exchange.Received? ==>
        var c := ClassifyReply(exchange.status, exchange.body);
        && err == ReplyError(c)
        && handled == old(handled) +
             (if c.Deliver? && messageHandler.Some? then [Delivery(messageHandler.value, c.message)] else [])
    {
      var out := Marshal(message);
      if out.Failure? {
        return Some(MarshalFailed(out.error)), None;
      }
      var url := baseURL + endpoint;
      if exchange.CreateFailed? {
        return Some(CreateRequestFailed(exchange.cause)), None;
      }
      var header := BuildHeaders(headers);
      sent := Some(Outgoing("POST", url, header, out.value));
      if exchange.DoFailed? {
        return Some(SendRequestFailed(exchange.cause)), sent;
      }
      if exchange.ReadFailed? {
        return Some(ReadResponseFailed(exchange.cause)), sent;
      }
      var c := ClassifyReply(exchange.status, exchange.body);
      if c.Deliver? && messageHandler.Some? {
        handled := handled + [Delivery(messageHandler.value, c.message)];
      }
      err := ReplyError(c);
    }

    /** Calls the close handler when one is set and always succeeds. */
    method Close() returns (err: Option<SendError>)
      modifies this`closed
      ensures err.None?
      ensures closed == old(closed) + (if closeHandler.Some? then [closeHandler.value] else [])
    {
      if closeHandler.Some? {
        closed := closed + [closeHandler.value];
      }
      err := None;
    }

    method SetCloseHandler(handler: Option<HandlerId>)
      modifies this`closeHandler
      ensures closeHandler == handler
    {
      closeHandler := handler;
    }

    method SetErrorHandler(handler: Option<HandlerId>)
      modifies this`errorHandler
      ensures errorHandler == handler
    {
      errorHandler := handler;
    }

    method SetMessageHandler(handler: Option<HandlerId>)
      modifies this`messageHandler
      ensures messageHandler == handler
    {
      messageHandler := handler;
    }
  }

  /** A stored `Content-Type`, the only stored header, replaces the default one. */
  method StoredContentTypeOverrides(value: string) returns (h: map<string, string>)
    ensures h == map[ContentType := value]
  {
    var stored := map[ContentType := value];
    ContentTypeIsCanonical();
    h := BuildHeaders(stored);
    assert (set k | k in stored :: Canonical(k)) == {ContentType};
    assert Unambiguous(stored, ContentType);
  }
}
