/**
 * The MCP `Client` of client.go: an `initialized` flag that `Initialize` sets once, after
 * connecting, sending `initialize` and decoding the reply have all succeeded, and that guards
 * every other operation. The protocol layer is an oracle: each call's `connect` and `reply`
 * parameters are what `protocol.Connect` and `protocol.Request` return, and `decode` is what
 * `json.Unmarshal` makes of the reply bytes. The requests handed to the protocol are logged.
 */
module McpClient {
  import opened Wrappers

  /** The operations of the client, each bound to one protocol method. */
  datatype Op =
    | InitializeOp | ListToolsOp | CallToolOp | ListPromptsOp | GetPromptOp
    | ListResourcesOp | ReadResourceOp | PingOp

  /** The JSON-RPC method each operation sends. */
  function MethodName(op: Op): string {
    match op
    case InitializeOp => "initialize"
    case ListToolsOp => "tools/list"
    case CallToolOp => "tools/call"
    case ListPromptsOp => "prompts/list"
    case GetPromptOp => "prompts/get"
    case ListResourcesOp => "resources/list"
    case ReadResourceOp => "resources/read"
    case PingOp => "ping"
  }

  /** The operation a method name belongs to, if any. */
  function OpOfMethod(name: string): Option<Op> {
    if name == "initialize" then Some(InitializeOp)
    else if name == "tools/list" then Some(ListToolsOp)
    else if name == "tools/call" then Some(CallToolOp)
    else if name == "prompts/list" then Some(ListPromptsOp)
    else if name == "prompts/get" then Some(GetPromptOp)
    else if name == "resources/list" then Some(ListResourcesOp)
    else if name == "resources/read" then Some(ReadResourceOp)
    else if name == "ping" then Some(PingOp)
    else None
  }

  /** The method name identifies the operation that sent it. */
  lemma MethodNameRoundTrip(op: Op)
    ensures OpOfMethod(MethodName(op)) == Some(op)
  {
  }

  /** Each operation sends a method of its own. */
  lemma MethodNamesDistinct(a: Op, b: Op)
    requires a != b
    ensures MethodName(a) != MethodName(b)
  {
    MethodNameRoundTrip(a);
    MethodNameRoundTrip(b);
  }

  /** The context `errors.Wrap` adds when the request itself fails. */
  function RequestFailureText(op: Op): string {
    match op
    case InitializeOp => "failed to initialize"
    case ListToolsOp => "failed to list tools"
    case CallToolOp => "failed to call tool"
    case ListPromptsOp => "failed to list prompts"
    case GetPromptOp => "failed to get prompt"
    case ListResourcesOp => "failed to list resources"
    case ReadResourceOp => "failed to read resource"
    case PingOp => "failed to ping server"
  }

  /** The context `errors.Wrap` adds when the reply does not decode (`ping` decodes nothing). */
  function DecodeFailureText(op: Op): string {
    match op
    case InitializeOp => "failed to unmarshal initialize response"
    case ListToolsOp => "failed to unmarshal tools response"
    case CallToolOp => "failed to unmarshal tool response"
    case ListPromptsOp => "failed to unmarshal prompts response"
    case GetPromptOp => "failed to unmarshal prompt response"
    case ListResourcesOp => "failed to unmarshal resources response"
    case ReadResourceOp => "failed to unmarshal resource response"
    case PingOp => ""
  }

  datatype ClientError =
    | AlreadyInitialized                     // "client already initialized"
    | NotInitialized                         // "client not initialized"
    | InvalidResponseType                    // "invalid response type"
    | Wrapped(context: string, cause: string)  // errors.Wrap(cause, context)
    | Embedded(cause: string)                // the error carried inside a decoded reply

  /** The text of an error, as `Error()` renders it. */
  function ErrorText(e: ClientError): (t: string)
    ensures e.Wrapped? ==> t == e.context + ": " + e.cause
  {
    match e
    case AlreadyInitialized => "client already initialized"
    case NotInitialized => "client not initialized"
    case InvalidResponseType => "invalid response type"
    case Wrapped(context, cause) => context + ": " + cause
    case Embedded(cause) => cause
  }

  /** What `protocol.Request` returns: an error, a result that is not a byte slice, or bytes. */
  datatype Reply = RequestFailed(cause: string) | NotBytes | ReplyBytes(bytes: Bytes)

  /** The parameters a request carries. */
  datatype Params =
    | NoParams
    | CursorParams(cursor: Option<string>)
    | NameArgumentsParams(name: string, arguments: Bytes)
    | UriParams(uri: string)

  /** One request handed to the protocol. */
  datatype Call = Call(methodName: string, params: Params)

  /** The capabilities an `initialize` reply announces, kept as their JSON text. */
  datatype ServerCapabilities = ServerCapabilities(raw: Bytes)

  /** A decoded reply that carries either an error or a response (`toolResponseSent` and kin). */
  datatype Sent<T> = Sent(response: Option<T>, error: Option<string>)

  /**
   * The result of one operation after its request was sent: a failed request is wrapped with
   * the operation's context, a non-byte result is an invalid response type, and the bytes
   * are decoded, a decode error being wrapped with the operation's other context.
   */
  function Answer<T>(op: Op, reply: Reply, decode: Bytes -> Result<T, string>): (r: Result<T, ClientError>)
    ensures r.Success? <==> reply.ReplyBytes? && decode(reply.bytes).Success?
    ensures r.Success? ==> r.value == decode(reply.bytes).value
    ensures reply.RequestFailed? ==> r == Failure(Wrapped(RequestFailureText(op), reply.cause))
    ensures reply.NotBytes? ==> r == Failure(InvalidResponseType)
    ensures reply.ReplyBytes? && decode(reply.bytes).Failure? ==>
      r == Failure(Wrapped(DecodeFailureText(op), decode(reply.bytes).error))
  {
    match reply
    case RequestFailed(cause) => Failure(Wrapped(RequestFailureText(op), cause))
    case NotBytes => Failure(InvalidResponseType)
    case ReplyBytes(bytes) =>
      match decode(bytes)
      case Failure(cause) => Failure(Wrapped(DecodeFailureText(op), cause))
      case Success(v) => Success(v)
  }

  /** The embedded error wins over the embedded response; the response may be absent. */
  function Unwrap<T>(r: Result<Sent<T>, ClientError>): (u: Result<Option<T>, ClientError>)
    ensures u.Success? <==> r.Success? && r.value.error.None?
    ensures u.Success? ==> u.value == r.value.response
    ensures r.Success? && r.value.error.Some? ==> u == Failure(Embedded(r.value.error.value))
    ensures r.Failure? ==> u == Failure(r.error)
  {
    match r
    case Failure(e) => Failure(e)
    case Success(s) => if s.error.Some? then Failure(Embedded(s.error.value)) else Success(s.response)
  }

  /** An operation never succeeds on a reply whose embedded error is set, whatever the response. */
  lemma EmbeddedErrorWins<T>(op: Op, bytes: Bytes, decode: Bytes -> Result<Sent<T>, string>, cause: string)
    requires decode(bytes).Success? && decode(bytes).value.error == Some(cause)
    ensures Unwrap(Answer(op, ReplyBytes(bytes), decode)) == Failure(Embedded(cause))
  {
  }

  class Client {
    var initialized: bool
    var capabilities: Option<ServerCapabilities>
    /** The number of times the transport was connected. */
    var connects: nat
    /** The requests handed to the protocol, oldest first. */
    var sent: seq<Call>

    /** Capabilities are known exactly when the client is initialized. */
    ghost predicate Valid()
      reads this
    {
      initialized <==> capabilities.Some?
    }

    /** `NewClient`: not initialized, nothing connected or sent. */
    constructor ()
      ensures Valid()
      ensures !initialized && capabilities.None? && connects == 0 && sent == []
    {
      initialized := false;
      capabilities := None;
      connects := 0;
      sent := [];
    }

    /**
     * An initialized client refuses at once. Otherwise the transport is connected
     * (`connect`), `initialize` is sent (`reply`) and its bytes decoded (`decode`); the flag
     * and the capabilities change only when all three succeed.
     */
    method Initialize(connect: Option<string>, reply: Reply, decode: Bytes -> Result<ServerCapabilities, string>)
      returns (err: Option<ClientError>)
      requires Valid()
      modifies this
      ensures Valid()
      ensures old(initialized) ==>
        && err == Some(AlreadyInitialized)
        && initialized && capabilities == old(capabilities) && connects == old(connects) && sent == old(sent)
      ensures !old(initialized) && connect.Some? ==>
        && err == Some(Wrapped("failed to connect transport", connect.value))
        && !initialized && capabilities.None? && connects == old(connects) + 1 && sent == old(sent)
      ensures !old(initialized) && connect.None? ==>
        var r := Answer(InitializeOp, reply, decode);
        && connects == old(connects) + 1
        && sent == old(sent) + [Call(MethodName(InitializeOp), NoParams)]
        && (r.Failure? ==> err == Some(r.error) && !initialized && capabilities.None?)
        && (r.Success? ==> err.None? && initialized && capabilities == Some(r.value))
    {
      if initialized {
        return Some(AlreadyInitialized);
      }
      connects := connects + 1;
      if connect.Some? {
        return Some(Wrapped("failed to connect transport", connect.value));
      }
      sent := sent + [Call(MethodName(InitializeOp), NoParams)];
      var r := Answer(InitializeOp, reply, decode);
      if r.Failure? {
        return Some(r.error);
      }
      capabilities := Some(r.value);
      initialized := true;
      err := None;
    }

    /** Sends one guarded request: refused with nothing sent unless initialized. */
    method Request<T>(op: Op, params: Params, reply: Reply, decode: Bytes -> Result<T, string>)
      returns (r: Result<T, ClientError>)
      modifies this`sent
      ensures !initialized ==> r == Failure(NotInitialized) && sent == old(sent)
      ensures initialized ==> r == Answer(op, reply, decode) && sent == old(sent) + [Call(MethodName(op), params)]
    {
      if !initialized {
        return Failure(NotInitialized);
      }
      sent := sent + [Call(MethodName(op), params)];
      r := Answer(op, reply, decode);
    }

    method ListTools<T>(cursor: Option<string>, reply: Reply, decode: Bytes -> Result<T, string>)
      returns (r: Result<T, ClientError>)
      modifies this`sent
      ensures !initialized ==> r == Failure(NotInitialized) && sent == old(sent)
      ensures initialized ==>
        r == Answer(ListToolsOp, reply, decode) && sent == old(sent) + [Call("tools/list", CursorParams(cursor))]
    {
      r := Request(ListToolsOp, CursorParams(cursor), reply, decode);
    }

    method CallTool<T>(name: string, arguments: Bytes, reply: Reply, decode: Bytes -> Result<Sent<T>, string>)
      returns (r: Result<Option<T>, ClientError>)
      modifies this`sent
      ensures !initialized ==> r == Failure(NotInitialized) && sent == old(sent)
      ensures initialized ==>
        && r == Unwrap(Answer(CallToolOp, reply, decode))
        && sent == old(sent) + [Call("tools/call", NameArgumentsParams(name, arguments))]
    {
      var a := Request(CallToolOp, NameArgumentsParams(name, arguments), reply, decode);
      r := Unwrap(a);
    }

    method ListPrompts<T>(cursor: Option<string>, reply: Reply, decode: Bytes -> Result<T, string>)
      returns (r: Result<T, ClientError>)
      modifies this`sent
      ensures !initialized ==> r == Failure(NotInitialized) && sent == old(sent)
      ensures initialized ==>
        r == Answer(ListPromptsOp, reply, decode) && sent == old(sent) + [Call("prompts/list", CursorParams(cursor))]
    {
      r := Request(ListPromptsOp, CursorParams(cursor), reply, decode);
    }

    method GetPrompt<T>(name: string, arguments: Bytes, reply: Reply, decode: Bytes -> Result<Sent<T>, string>)
      returns (r: Result<Option<T>, ClientError>)
      modifies this`sent
      ensures !initialized ==> r == Failure(NotInitialized) && sent == old(sent)
      ensures initialized ==>
        && r == Unwrap(Answer(GetPromptOp, reply, decode))
        && sent == old(sent) + [Call("prompts/get", NameArgumentsParams(name, arguments))]
    {
      var a := Request(GetPromptOp, NameArgumentsParams(name, arguments), reply, decode);
      r := Unwrap(a);
    }

    method ListResources<T>(cursor: Option<string>, reply: Reply, decode: Bytes -> Result<T, string>)
      returns (r: Result<T, ClientError>)
      modifies this`sent
      ensures !initialized ==> r == Failure(NotInitialized) && sent == old(sent)
      ensures initialized ==>
        && r == Answer(ListResourcesOp, reply, decode)
        && sent == old(sent) + [Call("resources/list", CursorParams(cursor))]
    {
      r := Request(ListResourcesOp, CursorParams(cursor), reply, decode);
    }

    method ReadResource<T>(uri: string, reply: Reply, decode: Bytes -> Result<Sent<T>, string>)
      returns (r: Result<Option<T>, ClientError>)
      modifies this`sent
      ensures !initialized ==> r == Failure(NotInitialized) && sent == old(sent)
      ensures initialized ==>
        r == Unwrap(Answer(ReadResourceOp, reply, decode)) && sent == old(sent) + [Call("resources/read", UriParams(uri))]
    {
      var a := Request(ReadResourceOp, UriParams(uri), reply, decode);
      r := Unwrap(a);
    }

    /** `ping`: only a failed request is an error; the result is ignored. */
    method Ping(reply: Reply) returns (err: Option<ClientError>)
      modifies this`sent
      ensures !initialized ==> err == Some(NotInitialized) && sent == old(sent)
      ensures initialized ==> sent == old(sent) + [Call("ping", NoParams)]
      ensures initialized && reply.RequestFailed? ==> err == Some(Wrapped("failed to ping server", reply.cause))
      ensures initialized && !reply.RequestFailed? ==> err.None?
    {
      if !initialized {
        return Some(NotInitialized);
      }
      sent := sent + [Call(MethodName(PingOp), NoParams)];
      if reply.RequestFailed? {
        return Some(Wrapped(RequestFailureText(PingOp), reply.cause));
      }
      err := None;
    }

    /** The capabilities stored by a successful `Initialize`; none before. */
    method GetCapabilities() returns (c: Option<ServerCapabilities>)
      requires Valid()
      ensures c == capabilities
      ensures c.Some? <==> initialized
    {
      c := capabilities;
    }
  }

  /**
   * `Initialize` succeeds at most once: after one success a second call is refused without
   * connecting or sending, and the capabilities of the first stay.
   */
  method InitializeOnce(c: Client, caps: ServerCapabilities, bytes: Bytes, later: Reply)
    requires c.Valid() && !c.initialized
    modifies c
    ensures c.initialized && c.capabilities == Some(caps)
    ensures c.connects == old(c.connects) + 1
    ensures c.sent == old(c.sent) + [Call("initialize", NoParams)]
  {
    var first := c.Initialize(None, ReplyBytes(bytes), _ => Success(caps));
    var second := c.Initialize(None, later, _ => Failure("unused"));
    assert second == Some(AlreadyInitialized);
  }

  /** Before `Initialize`, every operation is refused and nothing reaches the protocol. */
  method GuardedBeforeInitialize(c: Client, reply: Reply)
    requires c.Valid() && !c.initialized
    modifies c
    ensures c.sent == old(c.sent)
  {
    var tools := c.ListTools(None, reply, (b: Bytes) => Success(b));
    assert tools == Failure(NotInitialized);
    var call := c.CallTool("name", [], reply, (b: Bytes) => Success(Sent(Some(b), None)));
    assert call == Failure(NotInitialized);
    var ping := c.Ping(reply);
    assert ping == Some(NotInitialized);
  }
}
