/** The orchestration layer of the process-manager design: a thin layer over
    the process registry and the JSON-RPC client that handshakes with the
    server before every request and turns every invocation into a response. */
module LegacyClientService {
  import opened Wrappers
  import opened Models
  import opened JsonRpc
  import opened Platform
  import opened ProcessManager
  import opened JsonRpcClient
  import ClientService

  const NoResponseFromServer := "No response from server"

  /** The response for a `tools/call` reply that parsed: no result is a
      failure naming the silence; a result succeeds exactly when it is not
      flagged as an error, carries its content, and a flagged one carries its
      first text as the error. */
  function ToolResponse(result: Option<McpCallToolResult>): (r: InvokeResponse)
    ensures r.success <==> result.Some? && !result.value.isError
    ensures result.None? ==> r == InvokeResponse(false, None, Some(NoResponseFromServer))
    ensures result.Some? ==> r.result == Some(result.value.content)
    ensures result.Some? && result.value.isError ==> r.error == ClientService.FirstText(result.value.content)
    ensures r.success ==> r.error.None?
  {
    if result.None? then InvokeResponse(false, None, Some(NoResponseFromServer))
    else ClientService.Respond(Ok(result.value))
  }

  /** The response for the whole invocation: a thrown exception becomes a
      failure carrying its message. */
  function InvocationResponse(outcome: Result<Option<McpCallToolResult>, Exception>): (r: InvokeResponse)
    ensures outcome.Err? ==> r == InvokeResponse(false, None, Some(outcome.error.message))
    ensures outcome.Ok? ==> r == ToolResponse(outcome.value)
  {
    match outcome
    case Err(e) => ClientService.Respond(Err(e))
    case Ok(result) => ToolResponse(result)
  }

  /** The two designs answer a server that never replies differently: here a
      failure with no content; the transport design a failed tool result whose
      only text, "No response", is both content and error. */
  lemma NoReplyResponsesDiffer()
    ensures InvocationResponse(Ok(None)) == InvokeResponse(false, None, Some(NoResponseFromServer))
    ensures ClientService.Respond(CallResultFrom(Ok(None)))
            == InvokeResponse(false, Some([TextItem("No response")]), Some("No response"))
  {
  }

  /** What the handshake yields for a process whose unread output is
      `output`, with the shared counter at `counter`: the failure the
      `initialize` reply carries, or success. */
  function HandshakeOutcome(output: seq<string>, counter: int, json: JsonCodec): Result<(), Exception> {
    match ParseResponse(ScanForResponse(output, NextId(counter)).line, json.untyped)
    case Err(e) => Err(e)
    case Ok(_) => Ok(())
  }

  /** What a request sent right after that handshake yields: the handshake's
      failure, or else the first reply for the following id in the output the
      handshake left unread, parsed. */
  function ReplyAfterHandshake<T>(output: seq<string>, counter: int, json: JsonCodec, decode: string -> Decoded<T>): Result<Option<T>, Exception> {
    match HandshakeOutcome(output, counter, json)
    case Err(e) => Err(e)
    case Ok(_) =>
      var rest := output[ScanForResponse(output, NextId(counter)).consumed..];
      ParseResponse(ScanForResponse(rest, NextId(NextId(counter))).line, decode)
  }

  /** The handshake's reply is never taken for the request's: with the
      `initialize` reply and then the request's reply in the output, each
      after lines not meant for it, the request yields its own reply. */
  lemma HandshakeReplyIsNotTheAnswer<T>(before: seq<string>, tail: string, between: seq<string>, tail': string, after: seq<string>,
                                        counter: int, json: JsonCodec, decode: string -> Decoded<T>)
    requires forall k :: 0 <= k < |before| ==> !Accepts(before[k], NextId(counter))
    requires forall k :: 0 <= k < |between| ==> !Accepts(between[k], NextId(NextId(counter)))
    requires ParseReply(CompactReplyHead(NextId(counter)) + tail, json.untyped).Ok?
    ensures ReplyAfterHandshake(before + [CompactReplyHead(NextId(counter)) + tail] + between + [CompactReplyHead(NextId(NextId(counter))) + tail'] + after,
                                counter, json, decode)
            == ParseReply(CompactReplyHead(NextId(NextId(counter))) + tail', decode)
  {
    var first, second := NextId(counter), NextId(NextId(counter));
    var rest := between + [CompactReplyHead(second) + tail'] + after;
    var output := before + [CompactReplyHead(first) + tail] + rest;
    assert output == before + [CompactReplyHead(first) + tail] + between + [CompactReplyHead(second) + tail'] + after;
    CorrelatedReplyIsDelivered(before, tail, rest, first);
    assert output[|before| + 1..] == rest;
    CorrelatedReplyIsDelivered(between, tail', after, second);
  }

  class McpClientService {
    const manager: McpProcessManager
    const rpc: McpJsonRpcClient

    ghost predicate Valid()
      reads this, manager, manager.Repr, rpc
    {
      && manager.Valid() && rpc.Valid()
      && rpc !in manager.Repr
    }

    constructor(manager: McpProcessManager, rpc: McpJsonRpcClient)
      requires manager.Valid() && rpc.Valid() && rpc !in manager.Repr
      ensures Valid() && this.manager == manager && this.rpc == rpc
    {
      this.manager := manager;
      this.rpc := rpc;
    }

    /** The process manager's answer: one of the configured names. */
    predicate ServerExists(serverName: string): (b: bool)
      ensures b <==> serverName in manager.settings.order
    {
      manager.ServerExists(serverName)
    }

    /** One entry per configured server, in configuration order: its name and
        whether it is running; no command and no arguments. */
    function GetServerInfos(): (r: seq<ServerInfo>)
      reads manager
      ensures |r| == |manager.settings.servers|
      ensures forall i :: 0 <= i < |r| ==>
                && r[i].name == manager.GetConfiguredServers()[i] && ServerExists(r[i].name)
                && r[i].command.None? && r[i].args == []
                && (r[i].isRunning <==> manager.IsServerRunning(r[i].name))
    {
      InfosFor(manager.GetConfiguredServers())
    }

    function InfosFor(names: seq<string>): (r: seq<ServerInfo>)
      reads manager
      ensures |r| == |names|
      ensures forall i :: 0 <= i < |r| ==> r[i] == ServerInfo(names[i], None, [], manager.IsServerRunning(names[i]))
    {
      if names == [] then []
      else [ServerInfo(names[0], None, [], manager.IsServerRunning(names[0]))] + InfosFor(names[1..])
    }

    function GetActiveServerCount(): (r: nat)
      reads this, manager, manager.Repr, rpc
      requires Valid()
      ensures r <= |manager.settings.servers|
      ensures r == |set name | name in manager.settings.servers && manager.IsServerRunning(name)|
    {
      manager.GetActiveServerCount()
    }

    /** The server's process, started if needed, after a handshake, which is
        performed on every call and not only for a new process. A process that
        starts but fails its handshake stays registered. */
    method GetInitializedServer(serverName: string) returns (r: Result<McpServerProcess, Exception>)
      requires Valid()
      modifies manager, manager.Repr, rpc
      ensures Valid() && fresh(manager.Repr - old(manager.Repr))
      ensures serverName !in manager.settings.servers ==> r == Err(NotFoundError(serverName)) && unchanged(rpc)
      ensures forall name :: name != serverName ==>
                (name in manager.processes <==> name in old(manager.processes))
                && (name in manager.processes ==> manager.processes[name] == old(manager.processes)[name])
      ensures serverName in old(manager.processes) ==> serverName in manager.processes
      ensures serverName in manager.processes ==>
                && rpc.issued == old(rpc.issued) + [rpc.requestId]
                && var p := manager.processes[serverName];
                   |p.stdin| > (if r.Ok? then 1 else 0) && p.stdin[|p.stdin| - 1 - (if r.Ok? then 1 else 0)] == NewRequest(rpc.requestId, MethodInitialize, HandshakeParams())
      ensures r.Ok? ==> && serverName in manager.processes && r.value == manager.processes[serverName]
                        && |r.value.stdin| >= 2 && r.value.stdin[|r.value.stdin| - 1] == InitializedNotification()
      ensures old(manager.PendingOutput(serverName)).None? ==> r.Err?
      ensures old(manager.PendingOutput(serverName)).Some? ==>
                var output := old(manager.PendingOutput(serverName)).value;
                var handshake := HandshakeOutcome(output, old(rpc.requestId), rpc.json);
                && (r.Ok? <==> handshake.Ok?)
                && (r.Err? ==> r.error == handshake.error)
                && (r.Ok? ==> && rpc.requestId == NextId(old(rpc.requestId)) && !r.value.writeLockDisposed
                              && r.value.stdout == output[ScanForResponse(output, NextId(old(rpc.requestId))).consumed..])
    {
      ghost var output := manager.PendingOutput(serverName);
      var started := manager.GetOrStartServer(serverName);
      if started.Err? {
        return Err(started.error);
      }
      var p := started.value;
      assert output == Some(p.stdout) && !p.writeLockDisposed;
      var handshake := Handshake(p);
      if handshake.Err? {
        return Err(handshake.error);
      }
      r := Ok(p);
    }

    /** The handshake with one registered process: its outcome is the one its
        pending output decides, and the process keeps its handle and flags. */
    method Handshake(p: McpServerProcess) returns (r: Result<(), Exception>)
      requires Valid() && p in manager.Repr && !p.writeLockDisposed
      modifies rpc, p
      ensures Valid()
      ensures r == HandshakeOutcome(old(p.stdout), old(rpc.requestId), rpc.json)
      ensures rpc.requestId == NextId(old(rpc.requestId)) && rpc.issued == old(rpc.issued) + [rpc.requestId]
      ensures p.process == old(p.process) && !p.writeLockDisposed && p.isInitialized == old(p.isInitialized)
      ensures p.stdout == old(p.stdout)[ScanForResponse(old(p.stdout), rpc.requestId).consumed..]
      ensures p.stdin == old(p.stdin) + [NewRequest(rpc.requestId, MethodInitialize, HandshakeParams())]
                                      + (if r.Ok? then [InitializedNotification()] else [])
    {
      ghost var counter := rpc.requestId;
      ghost var output := p.stdout;
      r := rpc.InitializeServer(p);
      assert r == HandshakeOutcome(output, counter, rpc.json);
    }

    /** `tools/list` on the server, after the handshake: the listed tools, none
        when no reply arrives. */
    method ListTools(serverName: string) returns (r: Result<seq<McpTool>, Exception>, ghost reply: Result<Option<McpToolsResult>, Exception>)
      requires Valid()
      modifies manager, manager.Repr, rpc
      ensures Valid() && fresh(manager.Repr - old(manager.Repr))
      ensures r == ToolsFrom(reply)
      ensures serverName !in manager.settings.servers ==> r == Err(NotFoundError(serverName))
      ensures forall name :: name != serverName ==>
                (name in manager.processes <==> name in old(manager.processes))
                && (name in manager.processes ==> manager.processes[name] == old(manager.processes)[name])
      ensures reply.Ok? ==> serverName in manager.processes && var p := manager.processes[serverName];
                            |p.stdin| > 0 && p.stdin[|p.stdin| - 1] == NewRequest(rpc.requestId, MethodToolsList, NullParams)
      ensures old(manager.PendingOutput(serverName)).None? ==> reply.Err?
      ensures old(manager.PendingOutput(serverName)).Some? ==>
                reply == ReplyAfterHandshake(old(manager.PendingOutput(serverName)).value, old(rpc.requestId), rpc.json, rpc.json.tools)
    {
      var response := RequestAfterHandshake(serverName, MethodToolsList, NullParams, rpc.json.tools);
      reply := response;
      r := ToolsFrom(response);
    }

    method InvokeTool(serverName: string, request: InvokeRequest) returns (r: InvokeResponse, ghost outcome: Result<Option<McpCallToolResult>, Exception>)
      requires Valid()
      modifies manager, manager.Repr, rpc
      ensures Valid() && fresh(manager.Repr - old(manager.Repr))
      ensures r == InvocationResponse(outcome)
      ensures serverName !in manager.settings.servers ==> outcome == Err(NotFoundError(serverName))
      ensures forall name :: name != serverName ==>
                (name in manager.processes <==> name in old(manager.processes))
                && (name in manager.processes ==> manager.processes[name] == old(manager.processes)[name])
      ensures outcome.Ok? ==> serverName in manager.processes && var p := manager.processes[serverName];
                |p.stdin| > 0 && p.stdin[|p.stdin| - 1] == NewRequest(rpc.requestId, MethodToolsCall, CallParams(request.tool, request.params))
      ensures old(manager.PendingOutput(serverName)).None? ==> outcome.Err?
      ensures old(manager.PendingOutput(serverName)).Some? ==>
                outcome == ReplyAfterHandshake(old(manager.PendingOutput(serverName)).value, old(rpc.requestId), rpc.json, rpc.json.callResult)
    {
      r, outcome := TryInvokeTool(serverName, request);
    }

    /** Whatever fails, the caller gets a response. */
    method TryInvokeTool(serverName: string, request: InvokeRequest) returns (r: InvokeResponse, ghost outcome: Result<Option<McpCallToolResult>, Exception>)
      requires Valid()
      modifies manager, manager.Repr, rpc
      ensures Valid() && fresh(manager.Repr - old(manager.Repr))
      ensures r == InvocationResponse(outcome)
      ensures serverName !in manager.settings.servers ==> outcome == Err(NotFoundError(serverName))
      ensures forall name :: name != serverName ==>
                (name in manager.processes <==> name in old(manager.processes))
                && (name in manager.processes ==> manager.processes[name] == old(manager.processes)[name])
      ensures outcome.Ok? ==> serverName in manager.processes && var p := manager.processes[serverName];
                |p.stdin| > 0 && p.stdin[|p.stdin| - 1] == NewRequest(rpc.requestId, MethodToolsCall, CallParams(request.tool, request.params))
      ensures old(manager.PendingOutput(serverName)).None? ==> outcome.Err?
      ensures old(manager.PendingOutput(serverName)).Some? ==>
                outcome == ReplyAfterHandshake(old(manager.PendingOutput(serverName)).value, old(rpc.requestId), rpc.json, rpc.json.callResult)
    {
      var result := InvokeToolCore(serverName, request);
      outcome := result;
      r := InvocationResponse(result);
    }

    /** Handshake, then `tools/call` with the tool's name and its arguments
        (an empty set when none are given). */
    method InvokeToolCore(serverName: string, request: InvokeRequest) returns (r: Result<Option<McpCallToolResult>, Exception>)
      requires Valid()
      modifies manager, manager.Repr, rpc
      ensures Valid() && fresh(manager.Repr - old(manager.Repr))
      ensures serverName !in manager.settings.servers ==> r == Err(NotFoundError(serverName))
      ensures forall name :: name != serverName ==>
                (name in manager.processes <==> name in old(manager.processes))
                && (name in manager.processes ==> manager.processes[name] == old(manager.processes)[name])
      ensures r.Ok? ==> serverName in manager.processes && var p := manager.processes[serverName];
                |p.stdin| > 0 && p.stdin[|p.stdin| - 1] == NewRequest(rpc.requestId, MethodToolsCall, CallParams(request.tool, request.params))
      ensures old(manager.PendingOutput(serverName)).None? ==> r.Err?
      ensures old(manager.PendingOutput(serverName)).Some? ==>
                r == ReplyAfterHandshake(old(manager.PendingOutput(serverName)).value, old(rpc.requestId), rpc.json, rpc.json.callResult)
    {
      r := RequestAfterHandshake(serverName, MethodToolsCall, CallParams(request.tool, request.params), rpc.json.callResult);
    }

    /** The handshake, then one request on the same process: the reply is the
        first one for the request's id after the lines the handshake read. */
    method RequestAfterHandshake<T>(serverName: string, methodName: string, params: Params, decode: string -> Decoded<T>)
      returns (r: Result<Option<T>, Exception>)
      requires Valid()
      modifies manager, manager.Repr, rpc
      ensures Valid() && fresh(manager.Repr - old(manager.Repr))
      ensures serverName !in manager.settings.servers ==> r == Err(NotFoundError(serverName))
      ensures forall name :: name != serverName ==>
                (name in manager.processes <==> name in old(manager.processes))
                && (name in manager.processes ==> manager.processes[name] == old(manager.processes)[name])
      ensures r.Ok? ==> serverName in manager.processes && var p := manager.processes[serverName];
                |p.stdin| > 0 && p.stdin[|p.stdin| - 1] == NewRequest(rpc.requestId, methodName, params)
      ensures old(manager.PendingOutput(serverName)).None? ==> r.Err?
      ensures old(manager.PendingOutput(serverName)).Some? ==>
                r == ReplyAfterHandshake(old(manager.PendingOutput(serverName)).value, old(rpc.requestId), rpc.json, decode)
    {
      ghost var output := manager.PendingOutput(serverName);
      ghost var counter := rpc.requestId;
      var server := GetInitializedServer(serverName);
      if server.Err? {
        return Err(server.error);
      }
      assert output.Some? && HandshakeOutcome(output.value, counter, rpc.json).Ok?;
      ghost var rest := output.value[ScanForResponse(output.value, NextId(counter)).consumed..];
      assert rpc.requestId == NextId(counter) && server.value.stdout == rest && !server.value.writeLockDisposed;
      r := Send(server.value, methodName, params, decode);
      assert r == ParseResponse(ScanForResponse(rest, NextId(NextId(counter))).line, decode);
    }

    /** One request to a live registered process: its reply is the first one
        for the next id in the process's unread output. */
    method Send<T>(p: McpServerProcess, methodName: string, params: Params, decode: string -> Decoded<T>)
      returns (r: Result<Option<T>, Exception>)
      requires Valid() && p in manager.Repr && !p.writeLockDisposed
      modifies rpc, p
      ensures Valid()
      ensures r == ParseResponse(ScanForResponse(old(p.stdout), NextId(old(rpc.requestId))).line, decode)
      ensures rpc.requestId == NextId(old(rpc.requestId))
      ensures |p.stdin| > 0 && p.stdin[|p.stdin| - 1] == NewRequest(rpc.requestId, methodName, params)
    {
      r := rpc.SendRequest(p, methodName, params, decode);
    }

    /** Delegated to the registry: remove, kill and dispose. */
    method ShutdownServer(serverName: string)
      requires Valid()
      modifies manager, manager.Repr
      ensures Valid() && manager.Repr == old(manager.Repr)
      ensures manager.processes == old(manager.processes) - {serverName}
    {
      manager.ShutdownServer(serverName);
    }
  }
}
