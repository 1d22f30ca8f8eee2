/** The orchestration layer: one transport per configured server, created and
    initialized on first use, kept while it lives, and every tool invocation
    turned into the same response shape whatever went wrong. */
module ClientService {
  import opened Wrappers
  import opened Models
  import opened JsonRpc
  import opened Platform
  import opened Transports
  import opened TransportFactory

  /** `Content.FirstOrDefault()?.Text`. */
  function FirstText(content: seq<McpContentItem>): (r: Option<string>)
    ensures content == [] ==> r.None?
    ensures content != [] ==> r == content[0].text
  {
    if content == [] then None else content[0].text
  }

  /** The uniform response for an invocation's outcome: a thrown exception
      becomes a failure carrying its message and no result; a tool result
      succeeds exactly when it is not flagged as an error, always carries its
      content, and a flagged one carries its first text as the error. */
  function Respond(outcome: Result<McpCallToolResult, Exception>): (r: InvokeResponse)
    ensures r.success <==> outcome.Ok? && !outcome.value.isError
    ensures outcome.Err? ==> r.result.None? && r.error == Some(outcome.error.message)
    ensures outcome.Ok? ==> r.result == Some(outcome.value.content)
    ensures outcome.Ok? && outcome.value.isError ==> r.error == FirstText(outcome.value.content)
    ensures r.success ==> r.error.None?
  {
    match outcome
    case Err(e) => InvokeResponse(false, None, Some(e.message))
    case Ok(result) =>
      InvokeResponse(!result.isError, Some(result.content), if result.isError then FirstText(result.content) else None)
  }

  class McpClientService {
    const settings: McpServersSettings
    const host: HostEnvironment
    /** The live transports, by server name. */
    var transports: map<string, Transport>
    /** Every transport object this service has registered. */
    ghost var Repr: set<object>

    /** Only configured servers are registered, each with a distinct, valid,
        initialized transport built from that server's configuration. */
    ghost predicate Valid()
      reads this, Repr
    {
      && this !in Repr
      && (forall name :: name in transports ==>
            && transports[name].Obj() in Repr
            && transports[name].Valid()
            && transports[name].IsInitialized()
            && name in settings.servers
            && transports[name].Config() == settings.servers[name])
      && (forall a, b :: a in transports && b in transports && a != b ==> transports[a].Obj() != transports[b].Obj())
    }

    constructor(settings: McpServersSettings, host: HostEnvironment)
      ensures Valid() && fresh(Repr)
      ensures this.settings == settings && this.host == host && transports == map[]
    {
      this.settings := settings;
      this.host := host;
      transports := map[];
      Repr := {};
    }

    /** A server exists when it is one of the configured names. */
    predicate ServerExists(serverName: string): (b: bool)
      ensures b <==> serverName in settings.order
    {
      serverName in settings.servers
    }

    /** One entry per configured server, in configuration order, telling
        whether it has a live transport. */
    function GetServerInfos(): (r: seq<ServerInfo>)
      reads this
      ensures |r| == |settings.order|
      ensures forall i :: 0 <= i < |r| ==>
                && r[i].name == settings.order[i] && r[i].name in settings.servers
                && r[i].command == settings.servers[r[i].name].command
                && r[i].args == settings.servers[r[i].name].args
                && (r[i].isRunning <==> r[i].name in transports)
    {
      InfosFor(settings.order)
    }

    function InfosFor(names: seq<string>): (r: seq<ServerInfo>)
      reads this
      requires forall i :: 0 <= i < |names| ==> names[i] in settings.servers
      ensures |r| == |names|
      ensures forall i :: 0 <= i < |r| ==>
                r[i] == ServerInfo(names[i], settings.servers[names[i]].command, settings.servers[names[i]].args, names[i] in transports)
    {
      if names == [] then []
      else [ServerInfo(names[0], settings.servers[names[0]].command, settings.servers[names[0]].args, names[0] in transports)]
           + InfosFor(names[1..])
    }

    /** The number of live transports: at most the number of configured
        servers, and exactly the number of configured servers reported as
        running. */
    function GetActiveServerCount(): (r: nat)
      reads this, Repr
      requires Valid()
      ensures r <= |settings.servers|
      ensures r == |set name | name in settings.servers && name in transports|
    {
      assert (set name | name in settings.servers && name in transports) == transports.Keys;
      SubsetCardinality(transports.Keys, settings.servers.Keys);
      |transports|
    }

    /** The server's live transport; else, for a configured server, a new one
        from the factory, registered only once it has initialized. */
    method GetOrCreateTransport(serverName: string) returns (r: Result<Transport, Exception>)
      requires Valid()
      modifies this, Repr
      ensures Valid() && fresh(Repr - old(Repr))
      ensures serverName in old(transports) ==>
                r == Ok(old(transports)[serverName]) && transports == old(transports) && Repr == old(Repr) && unchanged(Repr)
      ensures serverName !in settings.servers ==> r == Err(NotFoundError(serverName))
      ensures serverName !in old(transports) && serverName in settings.servers && Select(settings.servers[serverName]).Err? ==>
                r == Err(Select(settings.servers[serverName]).error)
      ensures r.Err? ==> transports == old(transports)
      ensures r.Ok? ==> transports == old(transports)[serverName := r.value] && r.value.Valid() && r.value.IsInitialized()
                        && r.value.Obj() in Repr && r.value.Config() == settings.servers[serverName]
    {
      if serverName in transports {
        return Ok(transports[serverName]);
      }
      if serverName !in settings.servers {
        return Err(NotFoundError(serverName));
      }
      var config := settings.servers[serverName];
      var created := Create(config, host);
      if created.Err? {
        return Err(created.error);
      }
      var transport := created.value;
      var initialized := Initialize(transport);
      if initialized.Err? {
        return Err(initialized.error);
      }
      transports := transports[serverName := transport];
      Repr := Repr + {transport.Obj()};
      r := Ok(transport);
    }

    /** The tools a server offers. A failure leaves the registry as it was,
        apart from a transport created along the way; a live transport is never
        evicted. */
    method ListTools(serverName: string) returns (r: Result<seq<McpTool>, Exception>)
      requires Valid()
      modifies this, Repr
      ensures Valid() && fresh(Repr - old(Repr))
      ensures serverName !in settings.servers ==> r == Err(NotFoundError(serverName))
      ensures forall name :: name != serverName ==>
                (name in transports <==> name in old(transports)) && (name in transports ==> transports[name] == old(transports)[name])
      ensures serverName in old(transports) ==> serverName in transports && transports[serverName] == old(transports)[serverName]
      ensures serverName in old(transports) && old(transports)[serverName].SseT? ==>
                r == ToolsFrom(old(transports[serverName].sse.PendingReply(MethodToolsList, NullParams, transports[serverName].sse.host.json.tools)))
      ensures serverName in old(transports) && old(transports)[serverName].StdioT? && old(transports[serverName].stdio.Ready()) ==>
                r == ToolsFrom(old(transports[serverName].stdio.PendingReply(transports[serverName].stdio.host.json.tools)))
    {
      var transport := GetOrCreateTransport(serverName);
      if transport.Err? {
        return Err(transport.error);
      }
      r := Transports.ListTools(transport.value);
    }

    /** Invoke a tool; whatever happens, the caller gets a response, built by
        `Respond` from the call's outcome. */
    method InvokeTool(serverName: string, request: InvokeRequest) returns (r: InvokeResponse, ghost outcome: Result<McpCallToolResult, Exception>)
      requires Valid()
      modifies this, Repr
      ensures Valid() && fresh(Repr - old(Repr))
      ensures r == Respond(outcome)
      ensures serverName !in settings.servers ==> outcome == Err(NotFoundError(serverName))
      ensures forall name :: name != serverName ==>
                (name in transports <==> name in old(transports)) && (name in transports ==> transports[name] == old(transports)[name])
      ensures serverName in old(transports) ==> serverName in transports && transports[serverName] == old(transports)[serverName]
      ensures serverName in old(transports) && old(transports)[serverName].SseT? ==>
                outcome == CallResultFrom(old(transports[serverName].sse.PendingReply(MethodToolsCall, CallParams(request.tool, request.params), transports[serverName].sse.host.json.callResult)))
      ensures serverName in old(transports) && old(transports)[serverName].StdioT? && old(transports[serverName].stdio.Ready()) ==>
                outcome == CallResultFrom(old(transports[serverName].stdio.PendingReply(transports[serverName].stdio.host.json.callResult)))
    {
      var result := InvokeToolCore(serverName, request);
      outcome := result;
      r := Respond(result);
    }

    method InvokeToolCore(serverName: string, request: InvokeRequest) returns (r: Result<McpCallToolResult, Exception>)
      requires Valid()
      modifies this, Repr
      ensures Valid() && fresh(Repr - old(Repr))
      ensures serverName !in settings.servers ==> r == Err(NotFoundError(serverName))
      ensures forall name :: name != serverName ==>
                (name in transports <==> name in old(transports)) && (name in transports ==> transports[name] == old(transports)[name])
      ensures serverName in old(transports) ==> serverName in transports && transports[serverName] == old(transports)[serverName]
      ensures serverName in old(transports) && old(transports)[serverName].SseT? ==>
                r == CallResultFrom(old(transports[serverName].sse.PendingReply(MethodToolsCall, CallParams(request.tool, request.params), transports[serverName].sse.host.json.callResult)))
      ensures serverName in old(transports) && old(transports)[serverName].StdioT? && old(transports[serverName].stdio.Ready()) ==>
                r == CallResultFrom(old(transports[serverName].stdio.PendingReply(transports[serverName].stdio.host.json.callResult)))
    {
      var transport := GetOrCreateTransport(serverName);
      if transport.Err? {
        return Err(transport.error);
      }
      r := Transports.CallTool(transport.value, request.tool, request.params);
    }

    /** Remove the server's transport, if any, and dispose of it. The entry is
        gone even when disposal fails. */
    method ShutdownServer(serverName: string) returns (r: Result<(), Exception>)
      requires Valid()
      modifies this, Repr
      ensures Valid() && Repr == old(Repr)
      ensures transports == old(transports) - {serverName}
      ensures serverName !in old(transports) ==> r == Ok(())
      ensures serverName in old(transports) && r.Ok? ==> old(transports)[serverName].IsReleased()
    {
      r := Ok(());
      if serverName in transports {
        var transport := transports[serverName];
        transports := transports - {serverName};
        r := Transports.Dispose(transport);
      }
    }

    /** Dispose of every live transport, then forget them all. A disposal that
        fails stops the walk and leaves every entry registered. */
    method DisposeAsync() returns (r: Result<(), Exception>)
      requires Valid()
      modifies this, Repr
      ensures Valid() && Repr == old(Repr)
      ensures r.Ok? ==> transports == map[] && forall name :: name in old(transports) ==> old(transports)[name].IsReleased()
      ensures r.Err? ==> transports == old(transports)
    {
      var pending := transports.Keys;
      while pending != {}
        invariant pending <= transports.Keys
        invariant transports == old(transports) && Repr == old(Repr)
        invariant Valid()
        invariant forall name :: name in transports && name !in pending ==> transports[name].IsReleased()
        decreases pending
      {
        var name :| name in pending;
        r := Transports.Dispose(transports[name]);
        if r.Err? {
          return;
        }
        pending := pending - {name};
      }
      transports := map[];
      r := Ok(());
    }
  }
}
