# mcp-bridge, modelled in Dafny

mcp-bridge is an HTTP service that lets callers list and invoke the tools of
several configured MCP servers. Each server is reached in one of two ways:

- as a local child process that speaks line-delimited JSON-RPC 2.0 on its
  standard input and output (the *stdio transport*);
- as a remote HTTP endpoint that announces a session URL and answers on a
  server-sent-event stream (the *SSE transport*).

This project models the bridge's session and protocol layer, and it proves
properties of that model. The model covers:

- **JSON-RPC correlation** (`jsonrpc.dfy`): request and notification
  shapes, the reader that picks the reply line for a request id, the parsing
  of a reply into a result or a failure, and the wrapping 32-bit request-id
  counter.
- **The two transports** (`stdio_transport.dfy`, `sse_transport.dfy`):
  classes whose fields are the transport's state. The child process and the
  HTTP client are functions of a `HostEnvironment`; a pipe or an event stream
  is a sequence of lines.
- **Transport selection** (`transports.dfy`): the factory's case split
  over the configured transport type, with its argument errors.
- **The session registries**:
  - `client_service.dfy`: the transport-based service, which keeps a map
    of live transports, creates one on first use and disposes of it on
    shutdown;
  - `process_manager.dfy`: the older process registry, which holds
    process wrappers;
  - `json_rpc_client.dfy`: the older JSON-RPC client, whose one counter
    serves every process;
  - `legacy_client_service.dfy`: the older orchestrator, which performs
    the handshake before every request.
- **The HTTP controller** (`servers_controller.dfy`): the not-found guards,
  the redaction of sensitive parameters, the capped summaries, and the log
  entry written for every invocation.
- **The invocation log** (`invocation_logger.dfy`, with the grouping and
  sorting helpers in `aggregates.dfy`):
  - the table is a sequence of rows;
  - `ORDER BY ... DESC LIMIT` is a stable sort followed by a prefix;
  - `GROUP BY` and the pattern dictionary are association lists in
    first-appearance order;
  - the pattern counter slides two- and three-call windows over the newest
    1000 calls, with an array reversed in place and a counting loop.

`wrappers.dfy` (Option and Result), `text.dfy` (the .NET string operations
the code relies on), `models.dfy` (configuration and message records) and
`platform.dfy` (the host environment) hold the shared definitions.

Where the intended design and the code differ, the model follows the code:

- Get-or-create is check-then-act in both registries. The model is
  sequential and claims nothing about concurrent first callers.
- A reply is recognised by substring containment of `"id":N` or `"id": N`.
  So a reply to request 10·N + d (any digit d) is accepted while request N is
  awaited, which `JsonRpc.LongerIdAlsoAccepted` shows.
- The stdio transport's "not initialized" guard tests the process and the
  write lock, not the initialized flag. The SSE transport has no guard at
  all.
- The stdio transport's `initialized` notification has no `params` member.
  The SSE transport and the older client write `params` as null.
- The older orchestrator runs the handshake again on every call. A process
  whose handshake failed stays registered.

## Model

| member | source | states |
|---|---|---|
| Text.Truncate | src/McpBridge/Controllers/ServersController.cs:105 | the result is at most `max` + 3 characters; a string within `max` is unchanged; a longer one becomes its first `max` characters followed by "..." |
| Text.SplitJoinRoundTrip | src/McpBridge/Services/Transports/StdioTransport.cs:97 | arguments that contain no space, joined with single spaces, split back into exactly the same list |
| Text.JoinWithSpaceInjective | src/McpBridge/Services/Transports/StdioTransport.cs:97 | two non-empty lists of space-free arguments that join to the same text are the same list |
| Text.IntToStringInjective | src/McpBridge/Services/Transports/StdioTransport.cs:186-187 | different request ids are rendered as different decimal texts, so the two id spellings of different ids differ |
| JsonRpc.NewRequest | src/Models/JsonRpc/JsonRpcRequest.cs:10-20 | a request carries `jsonrpc` "2.0" by default, together with the given id, method and params |
| JsonRpc.CallParams | src/McpBridge/Services/Transports/StdioTransport.cs:52 | `tools/call` params carry the tool name, with the given arguments or an empty dictionary when there are none |
| JsonRpc.CompactReplyIsRecognised | src/McpBridge/Services/Transports/StdioTransport.cs:184-188 | every compact reply to request N is accepted as the reply to N, whatever follows its id member |
| JsonRpc.IsResponseForId | src/McpBridge/Services/Transports/StdioTransport.cs:184-188 | a line is taken as the reply to request N exactly when `"id":N` or `"id": N` occurs in it at some position, whatever surrounds it |
| JsonRpc.LongerIdAlsoAccepted | src/McpBridge/Services/Transports/StdioTransport.cs:184-188 | because matching is substring containment, a reply to request 10·N + d (N > 0, d a digit) is also accepted while request N is awaited |
| JsonRpc.HandshakeIdentity | src/McpBridge/Services/Transports/StdioTransport.cs:14-16 | the `initialize` parameters offer protocol version "2024-11-05" and no capabilities, and name the client "mcp-bridge" version "1.0.0" |
| JsonRpc.ResponseTextIsNonEmpty | src/McpBridge/Services/Transports/StdioTransport.cs:177-178 | a line that answers some request is never empty, so skipping empty lines never hides a reply |
| JsonRpc.ParseReply | src/McpBridge/Services/Transports/StdioTransport.cs:194-201 | a reply succeeds exactly when it deserialises to a response without `error`, and then yields its `result`; an `error` member fails with "MCP error: " followed by its message; text that is not JSON fails |
| JsonRpc.ParseResponse | src/McpBridge/Services/Transports/StdioTransport.cs:190-202 | no line, or an empty one, gives "no result"; any other line is parsed as a reply |
| JsonRpc.CreateNoResponseError | src/McpBridge/Services/Transports/StdioTransport.cs:220-224 | the synthesised result is flagged as an error and holds one text item, "No response", of type "text" |
| JsonRpc.ToolsFrom | src/McpBridge/Services/Transports/StdioTransport.cs:46-47 | a failure passes through unchanged; no result gives the empty tool list; a result gives its tools |
| JsonRpc.CallResultFrom | src/McpBridge/Services/Transports/StdioTransport.cs:53-54 | a failure passes through unchanged; no result gives the "No response" result; a result is returned as it is |
| JsonRpc.ScanForResponse | src/McpBridge/Services/Transports/StdioTransport.cs:168-182 | the reader returns the first line that is non-empty and carries the id, after rejecting every line before it; with no such line, the whole stream is consumed and nothing is returned |
| JsonRpc.ReadResponse | src/Services/McpJsonRpcClient.cs:66-80 | the read loop returns exactly what the reader's specification returns |
| JsonRpc.ScanSkipsRejected | src/McpBridge/Services/Transports/StdioTransport.cs:173-179 | lines that are all rejected can be dropped from the front of the stream without changing which line is returned |
| JsonRpc.CorrelatedReplyIsDelivered | src/McpBridge/Services/Transports/StdioTransport.cs:168-182 | after lines that do not answer request N, the compact reply to N is the line returned, and the lines after it remain unread |
| JsonRpc.WrapInt32 | src/McpBridge/Services/Transports/StdioTransport.cs:131 | the counter stays within the signed 32-bit range and wraps like `Interlocked.Increment` |
| JsonRpc.NextIdExtends | src/McpBridge/Services/Transports/StdioTransport.cs:131 | taking the next id keeps the issued ids as the sequence 1, 2, 3, ... |
| JsonRpc.IssuedIdsIncrease | src/McpBridge/Services/Transports/StdioTransport.cs:131 | until the counter wraps, each id is positive and strictly greater than every earlier one, and the k-th id is k |
| JsonRpc.NextIdIsFresh | src/McpBridge/Services/Transports/StdioTransport.cs:131 | until the counter wraps, the next id exceeds every id already issued |
| StdioTransports.StartInfoSettings | src/McpBridge/Services/Transports/StdioTransport.cs:94-104 | the child runs the configured command, in the configured working directory or else the current one, without a shell or a window, with all three streams redirected |
| StdioTransports.ArgumentStringDeterminesArguments | src/McpBridge/Services/Transports/StdioTransport.cs:97 | for non-empty lists of space-free arguments, the argument string determines the list: two configurations with the same string have the same arguments |
| StdioTransports.AddEnvironmentVariables | src/McpBridge/Services/Transports/StdioTransport.cs:106-112 | the result holds the inherited variables plus the configured ones; a configured variable replaces an inherited one of the same name; every other field is untouched |
| StdioTransports.StartProcessInfo | src/McpBridge/Services/Transports/StdioTransport.cs:84-104 | the child starts the configured command with no shell and redirected streams; a missing working directory means the current one; every configured variable is set |
| StdioTransports.StdioTransport.constructor | src/McpBridge/Services/Transports/StdioTransport.cs:25-30 | a new transport has no process, no write lock and id counter 0, and it is not initialized |
| StdioTransports.StdioTransport.InitializeAsync | src/McpBridge/Services/Transports/StdioTransport.cs:32-42 | once initialized, the call changes nothing; a failed start changes nothing; otherwise the child is started, `initialize` is written and its reply is read; the notification follows only when that reply parsed; the flag is set exactly on success |
| StdioTransports.StdioTransport.ListToolsAsync | src/McpBridge/Services/Transports/StdioTransport.cs:44-48 | without a process and lock it fails "Transport not initialized" and changes nothing; otherwise one `tools/list` exchange takes place and its reply gives the tools |
| StdioTransports.StdioTransport.CallToolAsync | src/McpBridge/Services/Transports/StdioTransport.cs:50-55 | without a process and lock it fails and changes nothing; otherwise one `tools/call` exchange takes place, and no reply gives "No response" |
| StdioTransports.StdioTransport.DisposeAsync | src/McpBridge/Services/Transports/StdioTransport.cs:57-62 | it fails exactly when killing the child throws, and then changes nothing: a second disposal fails with the invalid-operation error "No process is associated with this object.", a running child whose kill throws fails with that exception; otherwise a live child is killed, and the lock and the handle are released |
| StdioTransports.StdioTransport.TerminateProcess | src/McpBridge/Services/Transports/StdioTransport.cs:114-121 | with no child it does nothing; an already disposed handle fails with the invalid-operation error; an exited child is left alone; a running one is killed, or the kill's exception is returned and nothing changes |
| StdioTransports.StdioTransport.SendRequest | src/McpBridge/Services/Transports/StdioTransport.cs:127-138 | before initialization it fails and changes nothing; otherwise the counter advances to the new id, the request is written, lines up to its reply are read, and that reply is parsed |
| StdioTransports.StdioTransport.SendNotification | src/McpBridge/Services/Transports/StdioTransport.cs:140-146 | the notification is written with no id and no `params` member, unless the guard or the disposed lock refuses it |
| StdioTransports.StdioTransport.WriteToStdin | src/McpBridge/Services/Transports/StdioTransport.cs:148-162 | a disposed lock refuses the write; otherwise exactly one message is appended to the child's input |
| StdioTransports.ReplyAfterNoiseIsParsed | src/McpBridge/Services/Transports/StdioTransport.cs:168-202 | when the child answers after unrelated or empty lines, the request yields that reply's result, and later lines stay unread |
| StdioTransports.SilentChildYieldsNoResponse | src/McpBridge/Services/Transports/StdioTransport.cs:53-54 | a child whose output ends without answering (only empty or unrelated lines) makes `tools/call` yield the "No response" result rather than fail |
| SseTransports.EndpointScan | src/McpBridge/Services/Transports/SseTransport.cs:133-150 | an endpoint is only ever found after a line that starts with "event: endpoint"; a stream with no such line yields none |
| SseTransports.FirstEndpointPairDecides | src/McpBridge/Services/Transports/SseTransport.cs:135-146 | after lines with no endpoint event, an endpoint event followed by a data line yields the rest of that data line, whatever follows |
| SseTransports.EndpointSkipsNonDataPair | src/McpBridge/Services/Transports/SseTransport.cs:140-146 | an endpoint event whose next line is not a data line consumes that line too, and the answer is the scan of what follows the two |
| SseTransports.EndpointEventAtEnd | src/McpBridge/Services/Transports/SseTransport.cs:135-149 | an endpoint event on the last line, after lines with no endpoint event, yields no endpoint |
| SseTransports.ReadSseEndpoint | src/McpBridge/Services/Transports/SseTransport.cs:133-150 | the endpoint loop returns exactly what the scan specifies |
| SseTransports.EndpointAfterEvent | src/McpBridge/Services/Transports/SseTransport.cs:140-146 | an endpoint event followed by a `data: ` line yields the rest of that line, whatever comes after it |
| SseTransports.EndpointScanExamples | src/McpBridge/Services/Transports/SseTransport.cs:135-149 | an empty body, a body with only another event, and an endpoint event without a data line all yield no endpoint; "data: /messages" after the event yields "/messages" |
| SseTransports.SseResponse | src/McpBridge/Services/Transports/SseTransport.cs:152-168 | a stream with no data line for the id yields no result; any other outcome comes from such a line |
| SseTransports.FirstDataLineIsParsed | src/McpBridge/Services/Transports/SseTransport.cs:154-165 | after data lines that carry no reply for the id, the first data line that does is the one parsed, whatever follows it |
| SseTransports.ReadSseResponse | src/McpBridge/Services/Transports/SseTransport.cs:152-168 | the reply loop returns exactly what the specification returns |
| SseTransports.SseReplyAfterNoise | src/McpBridge/Services/Transports/SseTransport.cs:154-165 | after lines that carry no reply for the id, the data line with the compact reply is the one parsed |
| SseTransports.BearerToken | src/McpBridge/Services/Transports/SseTransport.cs:118-127 | a bearer token is set exactly when a non-empty variable name is configured and that variable holds a non-empty value, which is then the token |
| SseTransports.ConnectOutcome | src/McpBridge/Services/Transports/SseTransport.cs:67-77 | connecting succeeds exactly on a success status and a body that announces an endpoint; any other status is an HTTP error; a body without an endpoint is "Failed to get SSE endpoint from server" |
| SseTransports.PostOutcome | src/McpBridge/Services/Transports/SseTransport.cs:193-206 | a request fails when the POST fails or its status is not a success; otherwise its reply is read from the body |
| SseTransports.AckOutcome | src/McpBridge/Services/Transports/SseTransport.cs:208-214 | a notification succeeds exactly when its POST gets a success status |
| SseTransports.SseTransport.PostUrl | src/McpBridge/Services/Transports/SseTransport.cs:216 | requests go to the announced endpoint when there is one, otherwise to the configured URL |
| SseTransports.SseTransport.constructor | src/McpBridge/Services/Transports/SseTransport.cs:27-127 | the client carries the configured headers and the bearer token; the transport starts uninitialized, with no endpoint and no requests sent |
| SseTransports.SseTransport.InitializeAsync | src/McpBridge/Services/Transports/SseTransport.cs:36-44 | once initialized, the call changes nothing; the flag is set exactly when both the connection and the handshake succeed; a failed handshake keeps the announced endpoint |
| SseTransports.SseTransport.ListToolsAsync | src/McpBridge/Services/Transports/SseTransport.cs:46-50 | one `tools/list` POST is sent, with no initialization guard; no reply gives the empty list |
| SseTransports.SseTransport.CallToolAsync | src/McpBridge/Services/Transports/SseTransport.cs:52-57 | one `tools/call` POST is sent; no reply gives "No response" |
| SseTransports.SseTransport.DisposeAsync | src/McpBridge/Services/Transports/SseTransport.cs:59-63 | disposing changes nothing |
| SseTransports.SseTransport.Send | src/McpBridge/Services/Transports/SseTransport.cs:199 | the request is recorded as sent, and the reply is whatever the host answers |
| SseTransports.SseTransport.SendRequest | src/McpBridge/Services/Transports/SseTransport.cs:193-206 | the counter advances to the new id, one POST is sent to the current URL, and the result is that POST's outcome |
| SseTransports.SseTransport.SendNotification | src/McpBridge/Services/Transports/SseTransport.cs:208-214 | one POST carrying the notification, with `params` null and no id, is sent to the current URL; only its status decides the result |
| Transports.Initialize | src/McpBridge/Services/McpClientService.cs:85-86 | the transport is initialized exactly when the call succeeds; an already initialized transport is left unchanged |
| Transports.ListTools | src/McpBridge/Services/McpClientService.cs:40-44 | a stdio transport that is not ready fails "Transport not initialized" and nothing changes; otherwise the result is the tools from the reply pending for `tools/list` on that transport |
| Transports.CallTool | src/McpBridge/Services/McpClientService.cs:58-61 | a stdio transport that is not ready fails and nothing changes; otherwise the result is the call result from the reply pending for `tools/call` on that transport |
| Transports.Dispose | src/McpBridge/Services/McpClientService.cs:71-75 | success leaves the transport released; only a stdio child whose kill fails makes it fail, and then nothing changes; a second disposal of a stdio transport fails with the invalid-operation error |
| TransportFactory.Select | src/McpBridge/Services/Transports/McpTransportFactory.cs:22-46 | Stdio with a command and Sse with a URL are accepted, and nothing else is; each refusal is an argument error; an undeclared type is named by its number in the message |
| TransportFactory.Create | src/McpBridge/Services/Transports/McpTransportFactory.cs:22-46 | a transport is built exactly when the selection accepts the configuration; it is new, valid and not yet initialized |
| TransportFactory.SelectReadsOnlyItsField | src/McpBridge/Services/Transports/McpTransportFactory.cs:24-29 | two configurations that agree on the type and on that type's own field get the same answer, whatever else they hold |
| TransportFactory.UnknownTypeMessagesDiffer | src/McpBridge/Services/Transports/McpTransportFactory.cs:28 | distinct undeclared transport values are reported with distinct messages |
| ClientService.FirstText | src/McpBridge/Services/McpClientService.cs:67 | the error text is the text of the first content item, or nothing when there are no items |
| ClientService.Respond | src/McpBridge/Services/McpClientService.cs:52-68 | success is exactly "not flagged as an error"; a result carries its content; a flagged one carries its first text as the error; a failure becomes an unsuccessful response carrying the exception's message |
| ClientService.McpClientService.ServerExists | src/McpBridge/Services/McpClientService.cs:25-26 | a server exists exactly when its name is one of the configured names |
| ClientService.McpClientService.constructor | src/McpBridge/Services/McpClientService.cs:19-23 | a new service has no live transports |
| ClientService.McpClientService.GetServerInfos | src/McpBridge/Services/McpClientService.cs:28-35 | one entry per configured server, with its command and arguments, running exactly when it has a live transport |
| ClientService.McpClientService.GetActiveServerCount | src/McpBridge/Services/McpClientService.cs:37-38 | the count is the number of configured servers that are running, so never more than are configured |
| ClientService.McpClientService.GetOrCreateTransport | src/McpBridge/Services/McpClientService.cs:77-90 | a cached transport is returned with nothing changed; an unknown name is a not-found error; a new transport is registered only after it has initialized, and every failure leaves the registry unchanged |
| ClientService.McpClientService.ListTools | src/McpBridge/Services/McpClientService.cs:40-44 | an unknown name fails with the not-found error; no other server's entry changes; a live transport stays registered, and its `tools/list` reply gives the tools |
| ClientService.McpClientService.InvokeTool | src/McpBridge/Services/McpClientService.cs:46-56 | the call always yields a response, built from the call's outcome; an unknown name gives the not-found outcome; for a live transport the outcome is its `tools/call` reply, or "No response" |
| ClientService.McpClientService.InvokeToolCore | src/McpBridge/Services/McpClientService.cs:58-69 | an unknown name is a not-found error; entries for other servers stay as they were; a live transport's `tools/call` reply is the result, and no reply gives "No response" |
| ClientService.McpClientService.ShutdownServer | src/McpBridge/Services/McpClientService.cs:71-75 | the entry is removed whether or not disposal succeeds; an absent name changes nothing; a successful disposal releases the transport |
| ClientService.McpClientService.DisposeAsync | src/McpBridge/Services/McpClientService.cs:92-98 | on success every transport is released and the registry is empty; a disposal that fails leaves every entry registered |
| ProcessManager.McpServerProcess.constructor | src/McpBridge/Services/McpServerProcess.cs:10-16 | a new wrapper holds the started child with a live write lock and is not flagged as initialized |
| ProcessManager.McpServerProcess.Dispose | src/McpBridge/Services/McpServerProcess.cs:19-23 | the write lock and the process handle are released; nothing else changes |
| ProcessManager.StartInfo | src/McpBridge/Services/McpProcessManager.cs:53-67 | the start description is the transport's, but the configured variables are never added, so the child inherits the bridge's environment unchanged |
| ProcessManager.AfterKill | src/McpBridge/Services/McpProcessManager.cs:76-91 | after cleanup the child is released; it has exited when it already had or when the kill went through |
| ProcessManager.KillProcess | src/McpBridge/Services/McpProcessManager.cs:76-91 | kill failures are swallowed, and the wrapper is disposed in every case |
| ProcessManager.McpProcessManager.constructor | src/McpBridge/Services/McpProcessManager.cs:15-19 | a new manager has no running servers and is not disposed |
| ProcessManager.McpProcessManager.ServerExists | src/McpBridge/Services/McpProcessManager.cs:21 | a server exists exactly when its name is one of the configured names |
| ProcessManager.McpProcessManager.RunningServersExist | src/McpBridge/Services/McpProcessManager.cs:21-23 | only configured servers are ever registered, so a running server always exists |
| ProcessManager.McpProcessManager.GetConfiguredServers | src/McpBridge/Services/McpProcessManager.cs:27 | exactly the configured names, each once |
| ProcessManager.McpProcessManager.GetServerConfig | src/McpBridge/Services/McpProcessManager.cs:29-30 | the configuration is returned exactly for a configured name; otherwise nothing is returned |
| ProcessManager.McpProcessManager.GetActiveServerCount | src/McpBridge/Services/McpProcessManager.cs:25 | the count is the number of configured servers that are running, so never more than are configured |
| ProcessManager.McpProcessManager.GetOrStartServer | src/McpBridge/Services/McpProcessManager.cs:32-43 | a registered process is returned and nothing is started; an unknown name is a not-found error; a failed start registers nothing; a started child is registered under its name with a fresh wrapper; a process is handed out exactly when there is pending output for the name, and its unread output is that output |
| ProcessManager.McpProcessManager.ShutdownServer | src/McpBridge/Services/McpProcessManager.cs:45-51 | the entry is removed, and an absent name changes nothing; a removed process is killed if possible and disposed; the other wrappers are untouched |
| ProcessManager.McpProcessManager.Dispose | src/McpBridge/Services/McpProcessManager.cs:93-103 | the first call kills and disposes every process and empties the registry; a second call changes nothing |
| JsonRpcClient.InitializedNotification | src/Services/McpJsonRpcClient.cs:44-47 | the legacy notification has no id and writes `params` as null |
| JsonRpcClient.McpJsonRpcClient.constructor | src/Services/McpJsonRpcClient.cs:15-18 | the counter starts at 0 with no ids issued |
| JsonRpcClient.McpJsonRpcClient.SendRequest | src/Services/McpJsonRpcClient.cs:33-42 | the shared counter advances to the new id, the request is written to that process, lines up to its reply are read, and the result is the parsed reply, or the disposed-lock error |
| JsonRpcClient.McpJsonRpcClient.SendNotification | src/Services/McpJsonRpcClient.cs:44-48 | a notification is written, unless the write lock is disposed; nothing is read back |
| JsonRpcClient.McpJsonRpcClient.WriteMessage | src/Services/McpJsonRpcClient.cs:50-64 | a disposed lock refuses the write; otherwise exactly one message is appended |
| JsonRpcClient.McpJsonRpcClient.InitializeServer | src/Services/McpJsonRpcClient.cs:20-31 | `initialize` is sent with the handshake parameters; the notification follows only when its reply parsed; the process's own flag is never set |
| JsonRpcClient.IdsAreNeverReused | src/Services/McpJsonRpcClient.cs:18-35 | one counter serves every process, so until it wraps no two requests share an id, whichever processes they went to |
| LegacyClientService.ToolResponse | src/Services/McpClientService.cs:61-69 | no result is a failure "No response from server"; otherwise success is exactly "not flagged", with the content, and a flagged result carries its first text as the error |
| LegacyClientService.InvocationResponse | src/Services/McpClientService.cs:43-53 | a thrown exception becomes an unsuccessful response carrying its message; otherwise the tool response |
| LegacyClientService.NoReplyResponsesDiffer | src/Services/McpClientService.cs:61-62 | the two service designs answer a silent server differently: here with a failure and no content; the transport design with a "No response" result |
| LegacyClientService.HandshakeReplyIsNotTheAnswer | src/Services/McpClientService.cs:55-59 | with the `initialize` reply and then the request's own reply in a process's output, each after lines not meant for it, the request after the handshake yields its own reply |
| LegacyClientService.McpClientService.ServerExists | src/Services/McpClientService.cs:19-20 | a server exists exactly when the manager has it among the configured names |
| LegacyClientService.McpClientService.constructor | src/Services/McpClientService.cs:13-17 | the service holds the given manager and RPC client |
| LegacyClientService.McpClientService.GetServerInfos | src/Services/McpClientService.cs:22-28 | one entry per configured name, in order, with no command and no arguments, running exactly when the manager says so |
| LegacyClientService.McpClientService.GetActiveServerCount | src/Services/McpClientService.cs:30-31 | the manager's count: the configured servers that are running |
| LegacyClientService.McpClientService.GetInitializedServer | src/Services/McpClientService.cs:75-84 | the handshake is performed on every call, even for a running process; an unknown name is not-found; other servers' entries are untouched; the result succeeds exactly when the `initialize` reply read from the process's pending output parses, and otherwise carries that reply's failure; a process whose handshake fails stays registered |
| LegacyClientService.McpClientService.ListTools | src/Services/McpClientService.cs:33-38 | the tools come from the reply to `tools/list`: the first line for its id after the lines the handshake read from the process's pending output; no reply gives none; a failed handshake's error is returned; an unknown name fails with not-found |
| LegacyClientService.McpClientService.InvokeTool | src/Services/McpClientService.cs:40-41 | the response is the invocation response for the outcome, which is the `tools/call` reply read after the handshake from the process's pending output, or the handshake's failure, or not-found for an unknown name |
| LegacyClientService.McpClientService.TryInvokeTool | src/Services/McpClientService.cs:43-53 | whatever fails, the caller gets a response built from the outcome, and the outcome is the `tools/call` reply read after the handshake from the pending output |
| LegacyClientService.McpClientService.InvokeToolCore | src/Services/McpClientService.cs:55-59 | after the handshake, `tools/call` is written with the tool name and arguments, and the result is the first reply for its id after the lines the handshake read, or the handshake's failure; an unknown name is not-found |
| LegacyClientService.McpClientService.ShutdownServer | src/Services/McpClientService.cs:72-73 | the manager removes the server's entry |
| Aggregates.SortDesc | src/McpBridge/Services/Logging/SqliteInvocationLogger.cs:96 | the result is a permutation of the input, ordered by non-increasing key |
| Aggregates.InsertWithKey | src/McpBridge/Services/Logging/SqliteInvocationLogger.cs:96 | inserting an element puts it ahead of the elements with its own key and keeps the order of the elements with any other key |
| Aggregates.SortDescStable | src/McpBridge/Services/Logging/SqliteInvocationLogger.cs:96 | the sort is stable: for every key value, the elements with that key come out in the order they went in |
| Aggregates.Limit | src/McpBridge/Services/Logging/SqliteInvocationLogger.cs:97 | the result is a prefix of the input, all of it for a negative limit, otherwise at most `limit` long |
| Aggregates.TallyCounts | src/McpBridge/Services/Logging/SqliteInvocationLogger.cs:258-282 | keys are distinct; each entry's total counts the observations with its key, and its successes count the successful ones; success never exceeds total; totals add up to the number of observations |
| Aggregates.SortedTallyCounts | src/McpBridge/Services/Logging/SqliteInvocationLogger.cs:158-214 | the grouped lines, sorted by count, hold one line per observed key (keys distinct, every observed key present), each with the occurrences and successes of its key and a positive total; lines come largest first and their totals add up to the number of observations |
| Aggregates.TallyAppend | src/McpBridge/Services/Logging/SqliteInvocationLogger.cs:264-268 | one more observation adds one to its key's total, and to its successes when it succeeded |
| InvocationLogging.ToRow | src/McpBridge/Services/Logging/SqliteInvocationLogger.cs:71 | the stored success column is 1 exactly for a successful invocation and 0 otherwise |
| InvocationLogging.StoredLogReadsBack | src/McpBridge/Services/Logging/SqliteInvocationLogger.cs:67-115 | a stored log reads back with the id the table gives it, its timestamp as the same instant, and every other field unchanged, nullable ones included |
| InvocationLogging.LogsAreNewestFirst | src/McpBridge/Services/Logging/SqliteInvocationLogger.cs:92-98 | `limit` entries (all of them when the limit is negative or larger than the table), in non-increasing timestamp order |
| InvocationLogging.LogsAreStoredRows | src/McpBridge/Services/Logging/SqliteInvocationLogger.cs:92-115 | every entry is a stored row, and no row newer than the oldest entry returned is left out |
| InvocationLogging.LatestLogReadsBackFirst | src/McpBridge/Services/Logging/SqliteInvocationLogger.cs:54-115 | an invocation logged after all the others is the first entry read back, as it was logged apart from its new id, with its timestamp as the same instant |
| InvocationLogging.SuccessSum | src/McpBridge/Services/Logging/SqliteInvocationLogger.cs:139-148 | the sum is NULL exactly for an empty table, and never more than the number of rows |
| InvocationLogging.SuccessSumCounts | src/McpBridge/Services/Logging/SqliteInvocationLogger.cs:139 | the success sum counts exactly the rows whose success column is 1 (0 for an empty table) |
| InvocationLogging.OverallStatsAgree | src/McpBridge/Services/Logging/SqliteInvocationLogger.cs:136-149 | the total is the number of rows; the success count is the number of rows whose success column is 1; failures are the rest |
| InvocationLogging.ToolStatsCountRows | src/McpBridge/Services/Logging/SqliteInvocationLogger.cs:158-186 | one line per (server, tool) pair that occurs in the rows: no pair twice, every row's pair present; each line counts exactly the rows for its pair, and their successes; lines come largest first and add up to the total |
| InvocationLogging.ServerStatsCountRows | src/McpBridge/Services/Logging/SqliteInvocationLogger.cs:190-214 | one line per server that occurs in the rows: no server twice, every row's server present; each line counts exactly the rows for its server, and their successes; lines come largest first and add up to the total |
| InvocationLogging.Reverse | src/McpBridge/Services/Logging/SqliteInvocationLogger.cs:255 | element i of the result is element n-1-i of the input |
| InvocationLogging.RecentCalls | src/McpBridge/Services/Logging/SqliteInvocationLogger.cs:234-255 | one call per analysed row, in the same order |
| InvocationLogging.Repeated | src/McpBridge/Services/Logging/SqliteInvocationLogger.cs:286 | only entries seen more than once are kept, each taken from the dictionary |
| InvocationLogging.RecentRowsAreChronological | src/McpBridge/Services/Logging/SqliteInvocationLogger.cs:234-255 | at most the 1000 newest rows are analysed, oldest first |
| InvocationLogging.WindowsUpToShape | src/McpBridge/Services/Logging/SqliteInvocationLogger.cs:258-282 | after i steps there are i pair windows and up to i triple windows, each over consecutive calls |
| InvocationLogging.WindowCount | src/McpBridge/Services/Logging/SqliteInvocationLogger.cs:258-282 | n calls give no windows when n < 2, else (n-1)+(n-2); every window covers consecutive calls; the dictionary totals add up to the window count |
| InvocationLogging.PatternsReportRepeatedWindows | src/McpBridge/Services/Logging/SqliteInvocationLogger.cs:285-297 | at most 20 patterns, each seen more than once, largest first; occurrences and successes count exactly the matching windows, and failures are the rest |
| InvocationLogging.TopPatternsSound | src/McpBridge/Services/Logging/SqliteInvocationLogger.cs:285-297 | from a dictionary with distinct keys, at most 20 patterns, each seen more than once, with its key's occurrences and successes and the rest as failures, largest first |
| InvocationLogging.PatternsAreComplete | src/McpBridge/Services/Logging/SqliteInvocationLogger.cs:285-297 | a call sequence seen more than once is reported, unless 20 patterns are already reported and the last of them occurred at least as often |
| InvocationLogging.ReadCalls | src/McpBridge/Services/Logging/SqliteInvocationLogger.cs:241-252 | one call per row read, in the order read |
| InvocationLogging.CountWindows | src/McpBridge/Services/Logging/SqliteInvocationLogger.cs:258-282 | the counting loop yields the tally of every pair and triple window |
| InvocationLogging.ReverseInPlace | src/McpBridge/Services/Logging/SqliteInvocationLogger.cs:255 | the array ends up as the reverse of its old contents |
| InvocationLogging.SqliteInvocationLogger.constructor | src/McpBridge/Services/Logging/SqliteInvocationLogger.cs:14-27 | the persistent table is reopened, not recreated: a new logger holds exactly the rows earlier runs stored, and is not disposed |
| InvocationLogging.SqliteInvocationLogger.LogAsync | src/McpBridge/Services/Logging/SqliteInvocationLogger.cs:54-82 | one row is appended with the next id, or the disposed-lock error is returned and nothing changes |
| InvocationLogging.SqliteInvocationLogger.GetLogsAsync | src/McpBridge/Services/Logging/SqliteInvocationLogger.cs:84-124 | the newest `limit` logs, read back from the rows, or the disposed-lock error |
| InvocationLogging.SqliteInvocationLogger.GetStatsAsync | src/McpBridge/Services/Logging/SqliteInvocationLogger.cs:126-223 | the counts the stats specification gives for the rows (successes are the rows whose success column is 1, failures the rest), or the disposed-lock error |
| InvocationLogging.SqliteInvocationLogger.GetPatternsAsync | src/McpBridge/Services/Logging/SqliteInvocationLogger.cs:225-303 | the patterns the pattern specification gives for the rows, or the disposed-lock error |
| InvocationLogging.SqliteInvocationLogger.Dispose | src/McpBridge/Services/Logging/SqliteInvocationLogger.cs:305-309 | the lock and connection are released; the rows stay stored |
| ServersController.Redact | src/McpBridge/Controllers/ServersController.cs:91-102 | the loop builds exactly the sanitised dictionary |
| ServersController.RedactionMasksExactlySensitiveKeys | src/McpBridge/Controllers/ServersController.cs:91-102 | every key is kept; a value becomes "[REDACTED]" exactly when its key is sensitive (or it already was the marker); any other value is unchanged |
| ServersController.RedactionIsIdempotent | src/McpBridge/Controllers/ServersController.cs:91-102 | sanitising an already sanitised dictionary changes nothing |
| ServersController.ShortKeysAreNeverRedacted | src/McpBridge/Controllers/ServersController.cs:15-94 | no sensitive word is shorter than three characters, so keys of one or two characters are never redacted |
| ServersController.SensitivityIgnoresCase | src/McpBridge/Controllers/ServersController.cs:94 | a key and its upper-cased form are redacted alike |
| ServersController.ApiKeyWordsAreRedundant | src/McpBridge/Controllers/ServersController.cs:15-94 | "api_key" and "apikey" add nothing to the list: a key is sensitive exactly when it contains one of the six other words |
| ServersController.SanitizedParams | src/McpBridge/Controllers/ServersController.cs:86-106 | absent or empty parameters give nothing; otherwise the sanitised dictionary's JSON, cut to 500 characters plus "..." when longer, so at most 503 characters |
| ServersController.SanitizeParams | src/McpBridge/Controllers/ServersController.cs:86-106 | the method yields exactly the sanitised parameter text |
| ServersController.SummarizeResponse | src/McpBridge/Controllers/ServersController.cs:108-115 | nothing without a response or without a result; otherwise the result's JSON, cut to 200 characters plus "..." when longer, so at most 203 characters |
| ServersController.LogEntry | src/McpBridge/Controllers/ServersController.cs:66-76 | the entry succeeds only when a response says so; its error is the exception's message, otherwise the response's error; its parameters and summary are the sanitised texts |
| ServersController.LoggedInvocationReadsBack | src/McpBridge/Controllers/ServersController.cs:66-78 | what the log later returns for an invocation carries its sanitised parameters, its success flag and its error unchanged |
| ServersController.ServersController.ListTools | src/McpBridge/Controllers/ServersController.cs:22-26 | an unconfigured name gets not-found and the registry is not touched; otherwise the service's answer is relayed, its tools as OK or its failure as a server error; no other server's entry changes; for a live transport the tools are those of its pending `tools/list` reply |
| ServersController.ServersController.Invoke | src/McpBridge/Controllers/ServersController.cs:28-55 | an unconfigured name gets not-found, and neither the registry nor the log changes; otherwise the service's response to this call is returned: for a live transport it is built from that transport's pending `tools/call` reply, whatever the logger does; no other server's entry changes; exactly one row is logged for the response, unless the logger is disposed |
| ServersController.ServersController.LogInvocation | src/McpBridge/Controllers/ServersController.cs:57-84 | the entry is appended to the log; a logger failure is swallowed |
| ServersController.ServersController.Shutdown | src/McpBridge/Controllers/ServersController.cs:117-125 | an unconfigured name gets not-found and the registry is not touched; otherwise the entry is removed and success answers "Server 'name' shutdown" |

## Left out

- Timeouts and cancellation: the 30-second response timeout and every cancellation token are left out, and a child's output is a finite sequence of lines. A reader that reaches the end of that output without a reply yields "no result". In the source a closed output reads as empty lines until the 30-second timeout, and the loop then ends with no result, or with `OperationCanceledException` when the cancellation lands inside a read. A child that stays alive without answering hits the same timeout, and its pending read throws `OperationCanceledException` (src/McpBridge/Services/Transports/StdioTransport.cs:171-175, src/Services/McpJsonRpcClient.cs:73). That exception is not modelled.
- Concurrency: the write semaphores, `Interlocked.Increment` as an atomic operation, `ConcurrentDictionary` thread-safety and races between concurrent callers are out of scope. Every operation runs alone.
- Process spawning, pipes, HTTP and JSON (de)serialisation are parameters of `HostEnvironment`, `JsonCodec` and `JsonWriter`:
  - a spawned child is its process id plus the lines it will print;
  - an HTTP exchange is a function from request to reply;
  - serialisation is an arbitrary function, so the order of dictionary keys in serialised text is not modelled.
- Writes to a child's standard input fail only when the write lock has been disposed. Broken pipes and I/O errors are not modelled.
- Case-insensitive matching folds only ASCII letters. `StringComparison.OrdinalIgnoreCase` also folds other letters, so a key containing a non-ASCII letter that folds to an ASCII one is treated differently.
- String lengths count Dafny characters (Unicode scalar values). .NET counts UTF-16 code units, so the 500- and 200-character caps differ for text outside the Basic Multilingual Plane.
- `StartsWith` is ordinal. The source's `StartsWith(string)` uses the current culture.
- HTTP header validation, the HTTP reason phrase in status errors, and the `Accept` header object are not modelled. A status error carries only the status code.
- `Text.SplitJoinRoundTrip`, `Text.JoinWithSpaceInjective`, `StdioTransports.ArgumentStringDeterminesArguments`: stated only for arguments without spaces (and, for injectivity, non-empty lists). The runtime re-parses `ProcessStartInfo.Arguments`, so an argument with a space or a quote, or an empty one, does not reach the child unchanged; that parsing is not modelled.
- `SseTransports.SseTransport.PostUrl`, `SseTransports.SseTransport.SendRequest`: the announced endpoint is used as the request URL as it is, and its resolution against the server URL is not modelled. The production `HttpClient` (src/McpBridge/Program.cs:13) has no base address, so a relative endpoint such as "/messages" makes the source's POST fail, while the model sends it.
- Environment variable names are case-sensitive map keys. On Windows they are case-insensitive.
- Floating-point statistics are not modelled: `SuccessRate`, `AverageDurationMs` and `Math.Round`.
- SQLite specifics are not modelled: the connection, the schema, the database path under the user profile, and the text form of timestamps. Timestamps are UTC ticks, so their order is the order of the ISO 8601 text. A timestamp is written as UTC text and `DateTime.Parse` reads it back as the same instant in local time; the model keeps only the instant, so the `DateTime` kind and the local clock reading are not modelled.
- Ties under `ORDER BY` and `GROUP BY` are kept in insertion order (a stable sort, groups in first-appearance order). SQLite leaves that order unspecified.
- Counts are unbounded integers. The source reads them as 32-bit integers.
- The request-id counter wraps at 32 bits. Ids are proved distinct and increasing only for the first 2^31 - 1 requests.
- `ServersController.ServersController.Invoke`: the fire-and-forget logging task is modelled as a synchronous call after the response is computed. The path that logs a thrown exception and rethrows is unreachable, because the service never throws from an invocation. Like `ClientService.McpClientService.InvokeTool`, whose response it returns, it ties the outcome to the transport's reply only for a transport that was already live, not for one created by the call.
- `ServersController.ServersController.ListTools`: like `ClientService.McpClientService.ListTools`, whose answer it relays, it ties the tools to the transport's reply only for a transport that was already live, not for one created by the call.
- `ClientService.McpClientService.ListTools`: ties the returned tools to the transport's reply only for a transport that was already live; for one created by the call, only the registry effects are stated.
- `ClientService.McpClientService.InvokeToolCore`: likewise ties the result to the transport's reply only for a transport that was already live.
- `ServersController.ServersController.Shutdown`: does not state when disposal fails, which is a stdio child that refuses to be killed, as `ClientService.McpClientService.ShutdownServer` states.
- The controller's `List` action is not modelled; it returns the service's server infos unchanged.
- The other parts of the repository are not modelled: the ASP.NET start-up, the health and logs controllers, and the older `src/Controllers/ServersController.cs`.
- The older `src/Services/IMcpClientService.cs` declares members that `src/Services/McpClientService.cs` does not provide. Each class's own behaviour is modelled.
- `McpServerProcess.IsInitialized` is carried as a field, but no modelled code sets it, and neither does the source.
