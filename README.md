# mcp-golang core, modelled in Dafny

This project models the core of mcp-golang, a Go SDK for the Model Context Protocol (MCP),
which is JSON-RPC 2.0 over pluggable transports. It covers these parts:

- **The JSON-RPC envelope** (`transport/types.go`): requests, notifications, responses and
  errors; the tagged `BaseJsonRpcMessage` and its constructors; and `MarshalJSON`, whose
  only failure in the model is an unknown tag. `wrappers.dfy`, `messages.dfy`.
- **The stateless-HTTP bridge** (`transport/http/common.go`, `transport/http/http.go`):
  - every inbound body gets a correlation slot, the smallest free key below 1000000;
  - a request's id is rewritten to that key before the message handler sees it;
  - the body is decoded by trying Request, Notification, Response and Error in that order;
  - `Send` puts the handler's reply into the slot named by its response id;
  - the serving side takes the reply, deletes the slot, restores the original id and, on
    the HTTP server, marshals the reply as the HTTP answer.

  `shapes.dfy`, `bridge.dfy`, `http_common.dfy`, `http_server.dfy`.
- **The HTTP client transport** (`transport/http/http_client.go`):
  - headers are built, with canonical MIME keys and stored headers set after the default
    `Content-Type`;
  - an exchange ends in a transport error, a rejected status, an empty reply, a delivered
    message (Response, Error, Notification, Request, in that order) or an invalid body.

  `header_keys.dfy`, `http_client.dfy`.
- **The draft server** (`server.go`): the tool map; `parseTag`; `extractMaxLength`, which
  reads `maxLength(N)`; and the recursive `validateStruct` over an explicit value tree.
  `go_strings.dfy` supplies the Go `strings` functions these use. `draft_server.dfy`.
- **The tool, prompt and resource registry** whose contract `server_test.go` fixes:
  - listing sorts by name;
  - pages are cut by a limit and resume after the returned cursor;
  - an unknown cursor is an error;
  - each mutation sends one `list_changed` notification.

  `registry.dfy`.
- **The MCP client** (`client.go`): the `initialized` state machine, the method-name binding,
  and the error wrapping and unwrapping of each operation. `client.dfy`.
- **The logging tables and tool-response constructors** (`utilities_api.go`, `tool_api.go`).
  `logging.dfy`, `tool_api.dfy`.

Effects outside the process are oracle parameters, and callbacks are recorded in logs rather
than run:

- a body's four `json.Unmarshal` outcomes are a `Body` value;
- `io.ReadAll`, `ListenAndServe` and the server's `Close` are parameters;
- `http.NewRequest`, `client.Do` and the reply read are an `Exchange`;
- `protocol.Connect`, `protocol.Request` and the reply decoding are parameters;
- installed handlers are identified by `HandlerId` values.

Every blocking channel receive is split into a begin step, which runs up to the receive, and
a complete step, which runs after it.

Where the code and the design description differ, the model follows the code:

- **A full slot table.** When all 1000000 keys are taken, the probe stops at key 1000000 and
  uses it, even when that slot is already in use (`common.go:74-80`, `http.go:118-124`). The
  design description reports a slot-exhaustion error instead.
- **Bodies that are not requests.** The design lets a notification, response or error body
  take no slot and get an empty 200 at once. The code allocates a slot before decoding any
  body (`common.go:71-80`, `http.go:114-124`) and then waits on it (`common.go:146-147`,
  `http.go:190-191`). So a POSTed notification blocks until something is sent under the
  probed key. `BeginMessage` and `BeginRequest` allocate a slot for every readable body, as
  the code does.
- **An invalid JSON body on the HTTP server.** The handler does not answer it with 400: the
  body dispatches to no handler and the request waits for a reply, so `BeginRequest` returns
  `Blocked`. `http_test.go` expects a 400 here.

## Model

| member | source | states |
|---|---|---|
| Messages.EncodeErrorInner | transport/types.go:12-23 | the error object has members `code`, `message`, plus `data` exactly when data is set, and it decodes back to the same value |
| Messages.EncodeError | transport/types.go:26-35 | an error message has exactly the members `error`, `id` and `jsonrpc`, and it decodes back to itself |
| Messages.EncodeRequest | transport/types.go:37-50 | a request has `id`, `jsonrpc` and `method`, plus `params` only when the params are non-empty (omitempty), and it decodes back to itself |
| Messages.EncodeNotification | transport/types.go:52-62 | a notification has `jsonrpc` and `method`, plus `params` only when non-empty, no `id`, and it decodes back to itself |
| Messages.EncodeResponse | transport/types.go:66-75 | a response always has `id`, `jsonrpc` and `result` (an empty result is written as null), and it decodes back to itself |
| Messages.KindOfTag | transport/types.go:77-84 | a tag maps to the kind whose tag it is; a string that is none of the four tags maps to no kind |
| Messages.Marshal | transport/types.go:94-107 | in the model, marshalling fails exactly for an unknown tag; for each known tag the output decodes back to the payload of that tag |
| Messages.NewBaseMessageNotification | transport/types.go:109-114 | the message carries the notification tag and only the notification |
| Messages.NewBaseMessageRequest | transport/types.go:116-121 | the message carries the request tag and only the request |
| Messages.NewBaseMessageResponse | transport/types.go:123-128 | the message carries the response tag and only the response |
| Messages.NewBaseMessageError | transport/types.go:130-139 | the message carries the error tag and a copy of the error's code object, id and version |
| Messages.WellFormedIsConstructed | transport/types.go:86-139 | every message whose tag and payload agree is what the matching constructor builds |
| Messages.WellFormedMarshals | transport/types.go:94-107 | a message whose tag and payload agree always marshals, to a JSON object |
| Messages.ConstructedMessagesMarshal | transport/types.go:94-139 | anything the four constructors build is well formed and marshals |
| Messages.IdOnlyOnCorrelatedKinds | transport/types.go:26-75 | requests, responses and errors carry an `id`; notifications never do |
| Messages.OptionalMembers | transport/types.go:12-75 | `params` and `data` appear exactly when set; `result` always appears |
| Shapes.Decoded | transport/http/common.go:86-144 | the message built for a decoded shape carries that shape only |
| Shapes.FirstShapeFrom | transport/http/common.go:83-144 | the index found is the first position from `from` on whose shape the body decodes as; none means no later shape decodes |
| Shapes.FirstShape | transport/http/http_client.go:96-149 | some kind is found exactly when the body decodes as some kind in the order, and the kind found does decode |
| Bridge.ProbeFreeKey | transport/http/common.go:71-80 | the key is the smallest free key below 1000000; when every such key is taken it is 1000000, whether free or not |
| Bridge.ProbedKeyIsFresh | transport/http/common.go:74-80 | while some key below the limit is free, the probed key is free and adding the slot grows the table by one |
| Bridge.Dispatch | transport/http/common.go:83-144 | a handler call happens exactly when some shape decodes; a request is delivered with its id replaced by the slot key and its original id saved; otherwise the first decoding shape is delivered |
| Bridge.DecodeInOrder | transport/http/common.go:83-144 | the decode chain computes exactly `Dispatch` |
| Bridge.Deliveries | transport/http/common.go:94-143 | the handler is called at most once, and only when it is installed and the body decoded |
| Bridge.Reports | transport/http/common.go:160-162 | the error handler is called once with the error when it is installed, and never otherwise |
| Bridge.Restore | transport/http/common.go:149-151 | with a saved id, the reply's response id becomes that id and nothing else changes; without one, the reply is unchanged |
| Bridge.RestoreUndoesRewrite | transport/http/common.go:86-151 | a reply to the rewritten request, once restored, answers under the caller's original id |
| HttpCommon.BaseTransport.Send | transport/http/common.go:29-37 | a reply for a known slot is put into that slot; an unknown key fails with "no response channel" and changes nothing |
| HttpCommon.BaseTransport.Close | transport/http/common.go:40-45 | the close handler is called once when set; Close never fails |
| HttpCommon.BaseTransport.SetMessageHandler | transport/http/common.go:62-66 | the handler is replaced (the two other setters likewise, common.go:48-59) |
| HttpCommon.BaseTransport.BeginMessage | transport/http/common.go:69-144 | a slot is added under the probed key, the body is dispatched with the saved id, and the handler calls are logged |
| HttpCommon.BaseTransport.CompleteMessage | transport/http/common.go:146-153 | the slot is deleted and the reply returned with its original id restored |
| HttpCommon.BaseTransport.ReadBody | transport/http/common.go:157-166 | a read failure is reported to the error handler and returned wrapped; success returns the bytes |
| HttpCommon.RequestRoundTrip | transport/http/common.go:69-154 | one request answered through `Send` comes back under its own id, and the table returns to its prior contents |
| HttpCommon.TwoRequestsInFlight | transport/http/common.go:69-154 | two requests in flight on an empty table get the different slots 0 and 1; each reply returns under its own caller's id, and the table ends empty |
| HttpServer.ErrorReply | transport/http/http.go:100-203 | `http.Error` writes the status, plain-text and nosniff headers, and the message followed by a newline |
| HttpServer.HTTPTransport.constructor | transport/http/http.go:27-33 | a new transport has the default address ":8080", no server and an empty slot table |
| HttpServer.HTTPTransport.WithAddr | transport/http/http.go:36-39 | only the address changes, and the same transport is returned |
| HttpServer.HTTPTransport.Start | transport/http/http.go:42-52 | the server is created for the current address and endpoint, and serving's outcome is returned |
| HttpServer.HTTPTransport.Send | transport/http/http.go:55-63 | a known slot receives the reply; an unknown key fails with "no response channel" and changes nothing |
| HttpServer.HTTPTransport.Close | transport/http/http.go:66-76 | a failing server close is returned and the close handler is skipped; otherwise the close handler is called when set |
| HttpServer.HTTPTransport.SetMessageHandler | transport/http/http.go:93-97 | the handler is replaced (the two other setters likewise, http.go:79-90) |
| HttpServer.HTTPTransport.BeginRequest | transport/http/http.go:99-188 | a non-POST request gets 405 and changes nothing; a read failure gets 400 and one report; otherwise a slot is added and the body dispatched |
| HttpServer.HTTPTransport.CompleteRequest | transport/http/http.go:190-206 | the slot is deleted and the id restored; a marshal failure gets 500 and a report; otherwise 200 with a JSON content type and the marshalled reply |
| HttpServer.PostRoundTrip | transport/http/http.go:99-206 | a POSTed request answered through `Send` gets 200 and the response under the caller's own id, and the table is restored |
| HeaderKeys.CaseWords | transport/http/http_client.go:76-78 | re-casing keeps the length |
| HeaderKeys.Canonical | transport/http/http_client.go:76-78 | canonicalisation keeps the length, and a key with any non-token character is left unchanged |
| HeaderKeys.ContentTypeIsToken | transport/http/http_client.go:76 | `Content-Type` consists of token characters only |
| HeaderKeys.CasedIsFixed | transport/http/http_client.go:76-78 | a key already cased word by word is its own re-casing |
| HeaderKeys.ContentTypeIsCased | transport/http/http_client.go:76 | `Content-Type` is already cased word by word |
| HeaderKeys.ContentTypeIsCanonical | transport/http/http_client.go:76 | `Content-Type` is its own canonical form |
| HeaderKeys.CaseWordsIdempotent | transport/http/http_client.go:76-78 | re-casing twice equals re-casing once |
| HeaderKeys.CaseWordsKeepsTokens | transport/http/http_client.go:76-78 | re-casing maps token characters to token characters |
| HeaderKeys.CanonicalIdempotent | transport/http/http_client.go:76-78 | canonicalising a canonical key changes nothing |
| HttpClient.BuildHeaders | transport/http/http_client.go:76-79 | the header keys are `Content-Type` plus every stored key's canonical form; each value comes from a stored key with that form or is the default; a key no other stored key collides with keeps its value; the default `application/json` stays exactly when no stored key is `Content-Type` |
| HeaderKeys.StoredContentTypeReplacesDefault | transport/http/http_client.go:76-79 | when any stored keys canonicalise to `Content-Type`, even several colliding ones, the header holds one of their values and never the default |
| HttpClient.ClassifyReply | transport/http/http_client.go:92-149 | non-200 is rejected with body and status; 200 with an empty body is accepted silently; otherwise the first of Response, Error, Notification, Request that decodes is delivered, and a body that decodes as none is invalid |
| HttpClient.ResponseShapeWins | transport/http/http_client.go:97-107 | a body that decodes as a response is delivered as a response, whatever else it decodes as |
| HttpClient.ReplyError | transport/http/http_client.go:92-152 | only an empty or delivered reply gives no error; a rejection gives "server returned error" with text and status; an invalid body gives "received invalid response" |
| HttpClient.HTTPClientTransport.constructor | transport/http/http_client.go:32-38 | a new client has no base URL, the default HTTP client and no stored headers |
| HttpClient.HTTPClientTransport.WithClient | transport/http/http_client.go:41-44 | only the HTTP client changes, and the same transport is returned |
| HttpClient.HTTPClientTransport.WithBaseURL | transport/http/http_client.go:47-50 | only the base URL changes, and the same transport is returned |
| HttpClient.HTTPClientTransport.WithHeader | transport/http/http_client.go:53-56 | one stored header is inserted or overwritten, and every other entry is kept |
| HttpClient.HTTPClientTransport.Start | transport/http/http_client.go:59-62 | starting does nothing and succeeds |
| HttpClient.HTTPClientTransport.Send | transport/http/http_client.go:65-153 | each failure step gives its own error; the POST goes to `baseURL + endpoint` with the built headers and the marshalled body; the handler is called once for a delivered reply and never otherwise |
| HttpClient.HTTPClientTransport.Close | transport/http/http_client.go:156-161 | the close handler is called once when set; Close never fails |
| HttpClient.HTTPClientTransport.SetMessageHandler | transport/http/http_client.go:178-182 | the handler is replaced (the two other setters likewise, http_client.go:164-175) |
| HttpClient.StoredContentTypeOverrides | transport/http/http_client.go:76-79 | a stored `Content-Type` replaces the default `application/json` |
| GoStrings.IndexOf | server.go:136-141 | the index found is the first occurrence of the character; none means it does not occur |
| GoStrings.Split | server.go:136 | `strings.Split` gives at least one part, no part holds the separator, and joining the parts rebuilds the input |
| GoStrings.SplitJoin | server.go:136 | splitting what was joined from separator-free parts gives those parts back |
| GoStrings.CutFirst | server.go:138 | `SplitN(s, sep, 2)` gives two parts exactly when the separator occurs: the text before its first occurrence and everything after it |
| GoStrings.LeadingCount | server.go:139-140 | the count is the length of the maximal run of dropped characters at the start |
| GoStrings.TrailingCount | server.go:139-140 | the count is the length of the maximal run of dropped characters at the end |
| GoStrings.TrimWhere | server.go:139-140 | trimming leaves a slice of the input whose cut-off ends are all dropped characters and whose own ends are not |
| GoStrings.TrimmedEnds | server.go:139-140 | the slice between the two runs ends before the trailing run and keeps neither run's characters |
| GoStrings.TrimKeepsClean | server.go:139-140 | a string with clean ends is left unchanged by trimming |
| GoStrings.Utf8Len | server.go:119 | `len` of a string is between one and four bytes per character |
| GoStrings.AsciiLen | server.go:119 | an all-ASCII string has as many bytes as characters |
| DraftServer.Server.constructor | server.go:78-83 | `NewServer` keeps the transport and starts with no tools |
| DraftServer.Server.Tool | server.go:86-92 | `Tool` inserts or replaces the entry under the name and keeps every other tool |
| DraftServer.LastToolWins | server.go:86-92 | registering a name twice keeps the second registration |
| DraftServer.TagMapKeys | server.go:134-144 | a key is in the parsed tag exactly when some part has that key |
| DraftServer.TagMapLastWins | server.go:134-144 | when several parts share a key, the last one's value wins |
| DraftServer.ParseTag | server.go:134-144 | the loop builds exactly the map of the comma-separated parts |
| DraftServer.DigitRun | server.go:148 | the run is the maximal run of digits at the position |
| DraftServer.MatchDigits | server.go:148-152 | the captured group is a non-empty digit string |
| DraftServer.LeftmostMatch | server.go:148-149 | the match found is the leftmost position where `maxLength(digits)` matches; none means there is no match anywhere |
| DraftServer.Atoi | server.go:151 | the decimal value, clamped to the largest int64 on overflow |
| DraftServer.ExtractMaxLength | server.go:147-155 | no match gives 0; a match gives the value of the first match's digits |
| DraftServer.Decimal | server.go:151 | a canonical decimal spelling is a non-empty digit string |
| DraftServer.DecimalRoundTrip | server.go:151 | reading a number's decimal spelling gives the number |
| DraftServer.ExtractSpelledLimit | server.go:147-155 | `maxLength(N)` is read back as N for every N that fits in int64 |
| DraftServer.DigitRunCovers | server.go:148 | the digit run ends at the first non-digit |
| DraftServer.LimitError | server.go:106-124 | a length error names the field and the limit its tag gives |
| DraftServer.StructErrorAppend | server.go:98-130 | validating two field lists in a row gives the first list's error, if any, and otherwise the second list's |
| DraftServer.UntaggedFieldSkipped | server.go:101-104 | a field without a validate tag is skipped |
| DraftServer.FirstFailureReported | server.go:98-130 | the first failing field is the one reported |
| DraftServer.LongStringFails | server.go:117-121 | a string longer in bytes than its tag's limit fails with that limit |
| DraftServer.UnparsableLimitIsZero | server.go:113-155 | a tag whose `maxLength` does not parse limits strings to 0 bytes |
| DraftServer.ValidateStruct | server.go:95-131 | the loop with its recursion returns exactly the error of the tree validation |
| Registry.LessIrreflexive | server_test.go:168-207 | no name sorts before itself |
| Registry.LessTransitive | server_test.go:168-207 | the name order is transitive |
| Registry.LessTotal | server_test.go:168-207 | any two different names are ordered one way or the other |
| Registry.LessAsymmetric | server_test.go:168-207 | two names are never ordered both ways |
| Registry.HasMin | server_test.go:168-207 | every non-empty set of names has a least one |
| Registry.MinUnique | server_test.go:168-207 | the least name is unique |
| Registry.ListingSorted | server_test.go:168-207 | the listing is strictly increasing and holds exactly the registered names, each once |
| Registry.StrictUnique | server_test.go:168-207 | only one strictly increasing sequence holds a given set of names, so the order of registration is irrelevant |
| Registry.ListingIsTheSortedKeys | server_test.go:168-207 | any strictly increasing sequence of exactly the names is the listing |
| Registry.SortKeys | server_test.go:168-207 | the selection loop yields the listing: names strictly increasing, each registered name once |
| Registry.Position | server_test.go:210-213 | the position is the first occurrence of the cursor |
| Registry.Paginate | server_test.go:258-263 | a page fails exactly when the cursor names no key, with an invalid-cursor error |
| Registry.PageContents | server_test.go:182-255 | a page is the run right after the cursor, `limit` long while enough keys remain, never longer; its next cursor is its last key and is set exactly when keys remain |
| Registry.StrictIsDistinct | server_test.go:199-255 | a sorted listing has no repeats |
| Registry.PositionOfDistinct | server_test.go:210-231 | in a list without repeats, an entry's position is its index |
| Registry.CursorContinues | server_test.go:210-231 | passing back the next cursor resumes right after the last key returned |
| Registry.CollectIsRest | server_test.go:199-255 | following the cursors from a valid start yields every later key in order, with no gaps or repeats |
| Registry.CollectAll | server_test.go:199-255 | the pages from the first concatenate to the whole list |
| Registry.ListingPagesCoverAll | server_test.go:199-255 | the pages of the sorted names concatenate to the full sorted list |
| Registry.Server.constructor | server_test.go:160-165 | a new registry is empty, unlimited and has sent nothing |
| Registry.Server.SetPaginationLimit | server_test.go:182-183 | the page size is set |
| Registry.Server.RegisterTool | server_test.go:24-36 | the tool is added or replaced, and exactly one `notifications/tools/list_changed` is sent |
| Registry.Server.DeregisterTool | server_test.go:45-61 | a registered tool is removed with one `tools/list_changed`; an unknown name fails with not-found and changes nothing |
| Registry.Server.RegisterPrompt | server_test.go:73-85 | the prompt is added or replaced, and exactly one `notifications/prompts/list_changed` is sent |
| Registry.Server.DeregisterPrompt | server_test.go:94-110 | a registered prompt is removed with one `prompts/list_changed`; an unknown name fails with not-found and changes nothing |
| Registry.Server.RegisterResource | server_test.go:119-131 | the resource is added or replaced under its URI, and exactly one `notifications/resources/list_changed` is sent |
| Registry.Server.DeregisterResource | server_test.go:140-156 | a registered resource is removed with one `resources/list_changed`; an unknown URI fails with not-found and changes nothing |
| Registry.Server.ListTools | server_test.go:186-255 | the answer is the page of the sorted tool names, as descriptors |
| Registry.Server.ListPrompts | server_test.go:186-255 | the answer is the page of the sorted prompt names, as descriptors |
| Registry.Server.ListResources | server_test.go:186-255 | the answer is the page of the sorted resource URIs, as descriptors |
| Registry.RegisterThenDeregister | server_test.go:45-61 | registering then deregistering sends exactly two messages, both `tools/list_changed` |
| Registry.ScenarioOrder | server_test.go:167-179 | `b, a, c, e, d` lists as `a, b, c, d, e` |
| Registry.ScenarioFirstPage | server_test.go:185-207 | with limit 2 and no cursor the page is `a-tool, b-tool` with cursor `b-tool` |
| Registry.ScenarioSecondPage | server_test.go:209-231 | from `b-tool` the page is `c-tool, d-tool` with cursor `d-tool` |
| Registry.ScenarioLastPage | server_test.go:233-255 | from `d-tool` the page is `e-tool` with no cursor |
| Registry.ScenarioInvalidCursor | server_test.go:257-263 | the cursor `invalid-cursor` is an error |
| McpClient.MethodNameRoundTrip | client.go:41-256 | each operation's method name identifies the operation |
| McpClient.MethodNamesDistinct | client.go:41-256 | no two operations send the same method |
| McpClient.ErrorText | client.go:35-55 | a wrapped error reads as its context, ": ", then its cause |
| McpClient.Answer | client.go:72-88 | an operation succeeds exactly on a byte reply that decodes; a failed request, a non-byte reply and a decode failure each give their own error |
| McpClient.Unwrap | client.go:118-122 | an embedded error wins over the embedded response; otherwise the response, possibly none, is returned |
| McpClient.EmbeddedErrorWins | client.go:118-122 | a reply whose embedded error is set always fails with that error |
| McpClient.Client.constructor | client.go:22-27 | a new client is not initialized and has no capabilities |
| McpClient.Client.Initialize | client.go:30-60 | an initialized client refuses without connecting or sending; otherwise the flag and capabilities change only after connect, request and decode all succeed, and each failure gives its own error |
| McpClient.Client.Request | client.go:63-72 | an operation is refused with nothing sent unless the client is initialized |
| McpClient.Client.ListTools | client.go:63-89 | sends `tools/list` with the cursor when initialized; refused otherwise |
| McpClient.Client.CallTool | client.go:92-123 | sends `tools/call` with name and arguments, then unwraps the embedded error or response |
| McpClient.Client.ListPrompts | client.go:126-152 | sends `prompts/list` with the cursor when initialized; refused otherwise |
| McpClient.Client.GetPrompt | client.go:155-186 | sends `prompts/get` with name and arguments, then unwraps the embedded error or response |
| McpClient.Client.ListResources | client.go:189-215 | sends `resources/list` with the cursor when initialized; refused otherwise |
| McpClient.Client.ReadResource | client.go:218-248 | sends `resources/read` with the URI, then unwraps the embedded error or response |
| McpClient.Client.Ping | client.go:251-262 | sends `ping` when initialized; only a failed request is an error |
| McpClient.Client.GetCapabilities | client.go:265-267 | the capabilities are returned, and they are present exactly when the client is initialized |
| McpClient.InitializeOnce | client.go:30-60 | after one successful `Initialize`, a second one is refused, and the first capabilities and single connect stay |
| McpClient.GuardedBeforeInitialize | client.go:63-262 | before initialization, operations are refused and nothing reaches the protocol |
| Logging.Level2StrInOrder | utilities_api.go:6-41 | the named levels are exactly 0..8, named Nil, Debug, Info, Notice, Warning, Error, Critical, Alert, Emergency in that order |
| Logging.TablesInverse | utilities_api.go:6-29 | `level2str` and `str2Level` undo each other |
| Logging.Level2StrInjective | utilities_api.go:6-16 | distinct levels have distinct names |
| Logging.InverseSameSize | utilities_api.go:6-29 | two tables that undo each other have as many entries |
| Logging.RangeKeyed | utilities_api.go:6-41 | a table keyed by exactly 0..n-1 has n entries |
| Logging.TablesHaveNineEntries | utilities_api.go:6-29 | each table has nine entries |
| Logging.NewLoggingMessageParams | utilities_api.go:49-55 | the level's name is stored (empty for an unnamed level), and logger and data are kept |
| Logging.LevelNameRoundTrip | utilities_api.go:19-55 | the stored name of a named level maps back to that level |
| ToolApi.NewToolResponse | tool_api.go:10-14 | status 0 and the arguments as content, in order |
| ToolApi.NewToolResponseWithStatus | tool_api.go:16-21 | the given status and the arguments as content, in order |
| ToolApi.ConstructorsAgree | tool_api.go:10-21 | for the same arguments both constructors agree on content and differ only in status |
| ToolApi.NoArgumentsNoContent | tool_api.go:10-21 | without arguments the content is empty |

## Left out

**JSON and Go values**

- JSON text, `json.Unmarshal` leniency and member order are not modelled. A JSON object is a
  map from member name to value, and the body's decode outcomes come from an oracle.
  Whether a `json.RawMessage` holds valid JSON is not modelled either.
- Messages.Marshal: in the model a message with a known tag always marshals. Go's
  `json.Marshal` also fails when a `params`, `result` or `data` raw message holds invalid
  JSON, or when `data` cannot be encoded. So `HttpServer.HTTPTransport.CompleteRequest`
  reaches its 500 answer (`http.go:196-203`) only for an unknown tag.
- Aliasing of Go references is not modelled: each message is a value. A `NewBaseMessageError(nil)`
  panic has no counterpart, because the model's constructor receives a value.
- ToolApi.NewToolResponse: a nil slice and an empty slice are the same `seq`, so the JSON
  difference between `null` and `[]` for content is not modelled.

**Transports**

- HttpCommon.BaseTransport.Send, HttpServer.HTTPTransport.Send: a second `Send` to a slot
  that already holds a reply would block in Go (`common.go:29-37`, `http.go:55-63`). Both
  exclude it with a precondition.
- A `Send` needs a message that carries a response: the Go code dereferences
  `JsonRpcResponse` and would panic on any other kind. The model requires a response.
- Concurrency is not modelled: goroutines, the mutex, the unlocked map reads in `http.go`,
  and context cancellation.
- `net/http` server and client internals are not modelled: routing beyond the single
  endpoint, chunking and connection reuse. `http.Error` is modelled by its status, headers
  and body.
- Transports outside the core are not modelled: stdio, SSE, and the gin and chi adapters.

**Draft server**

- Go reflection and the regular-expression engine are modelled only for the shapes the
  draft validator uses: a value tree, a `strings.Split` part map, and the leftmost
  `maxLength(digits)` match.
- GoStrings.Utf8Len: a Go string is a byte string and may hold invalid UTF-8, and then `len`
  counts its raw bytes. The model's strings are sequences of characters, so such strings
  have no counterpart. `DraftServer.LongStringFails` measures only well-formed text.
- `Tool` stores an empty `Arguments` field. That field is not modelled.
- `main()` in `server.go` and the example programs are not modelled.

**Registry**

- The registry implementation behind `server_test.go` is not part of this model. The model
  follows the behaviour the test asserts, and `list_changed` is sent on every successful
  mutation, as in a serving server.
- The handler's argument-schema checks on registration are not modelled, so registration
  always succeeds.
- A set pagination limit is assumed positive. A zero or negative limit is not modelled.

**Client**

- The protocol layer is a parameter; its request IDs, timeouts and progress are not
  modelled.
- The `ctx` argument of the client's operations is not used by the model.
