/** The transport abstraction the orchestration layer talks to: either kind of
    transport, behind one set of operations (initialize, list tools, call a
    tool, dispose) that dispatch on the kind. */
module Transports {
  import opened Wrappers
  import opened Models
  import opened JsonRpc
  import opened StdioTransports
  import opened SseTransports

  datatype Transport = StdioT(stdio: StdioTransport) | SseT(sse: SseTransport) {

    /** The object holding the transport's state. */
    function Obj(): object {
      match this
      case StdioT(t) => t
      case SseT(t) => t
    }

    ghost predicate Valid()
      reads Obj()
    {
      match this
      case StdioT(t) => t.Valid()
      case SseT(t) => t.Valid()
    }

    predicate IsInitialized()
      reads Obj()
    {
      match this
      case StdioT(t) => t.isInitialized
      case SseT(t) => t.isInitialized
    }

    /** The configuration the transport was created from. */
    function Config(): McpServerConfig {
      match this
      case StdioT(t) => t.config
      case SseT(t) => t.config
    }

    /** Disposal has happened: a child process, if one was started, has been
        killed and its handle released. An HTTP transport holds nothing. */
    predicate IsReleased()
      reads Obj()
    {
      match this
      case StdioT(t) => t.process.Some? ==> t.process.value.exited && t.process.value.disposed
      case SseT(_) => true
    }
  }

  method Initialize(t: Transport) returns (r: Result<(), Exception>)
    requires t.Valid()
    modifies t.Obj()
    ensures t.Valid()
    ensures r.Ok? <==> t.IsInitialized()
    ensures old(t.IsInitialized()) ==> r == Ok(()) && unchanged(t.Obj())
  {
    match t
    case StdioT(s) => r := s.InitializeAsync();
    case SseT(s) => r := s.InitializeAsync();
  }

  method ListTools(t: Transport) returns (r: Result<seq<McpTool>, Exception>)
    requires t.Valid()
    modifies t.Obj()
    ensures t.Valid()
    ensures t.IsInitialized() == old(t.IsInitialized())
    ensures t.StdioT? ==> !old(t.stdio.Ready()) ==> r == Err(NotInitializedError()) && unchanged(t.Obj())
    ensures t.StdioT? ==> old(t.stdio.Ready()) ==> r == ToolsFrom(old(t.stdio.PendingReply(t.stdio.host.json.tools)))
    ensures t.SseT? ==> r == ToolsFrom(old(t.sse.PendingReply(MethodToolsList, NullParams, t.sse.host.json.tools)))
  {
    match t
    case StdioT(s) => r := s.ListToolsAsync();
    case SseT(s) => r := s.ListToolsAsync();
  }

  method CallTool(t: Transport, toolName: string, parameters: Option<Parameters>) returns (r: Result<McpCallToolResult, Exception>)
    requires t.Valid()
    modifies t.Obj()
    ensures t.Valid()
    ensures t.IsInitialized() == old(t.IsInitialized())
    ensures t.StdioT? ==> !old(t.stdio.Ready()) ==> r == Err(NotInitializedError()) && unchanged(t.Obj())
    ensures t.StdioT? ==> old(t.stdio.Ready()) ==> r == CallResultFrom(old(t.stdio.PendingReply(t.stdio.host.json.callResult)))
    ensures t.SseT? ==> r == CallResultFrom(old(t.sse.PendingReply(MethodToolsCall, CallParams(toolName, parameters), t.sse.host.json.callResult)))
  {
    match t
    case StdioT(s) => r := s.CallToolAsync(toolName, parameters);
    case SseT(s) => r := s.CallToolAsync(toolName, parameters);
  }

  /** Dispose of the transport. Only a stdio transport can fail: its child
      refuses to be killed, or it was disposed before and its process handle
      is gone. Then nothing changes. */
  method Dispose(t: Transport) returns (r: Result<(), Exception>)
    requires t.Valid()
    modifies t.Obj()
    ensures t.Valid()
    ensures t.IsInitialized() == old(t.IsInitialized())
    ensures r.Ok? ==> t.IsReleased()
    ensures r.Err? ==> t.StdioT? && old(t.stdio.KillFailure()) == Some(r.error) && unchanged(t.Obj())
    ensures t.StdioT? && old(t.stdio.process).Some? && old(t.stdio.process).value.disposed ==> r == Err(NoProcessError())
  {
    match t
    case StdioT(s) => r := s.DisposeAsync();
    case SseT(s) => s.DisposeAsync(); r := Ok(());
  }
}

/** Choosing and building the transport a server's configuration asks for. */
module TransportFactory {
  import opened Wrappers
  import opened Text
  import opened Models
  import opened Platform
  import opened StdioTransports
  import opened SseTransports
  import opened Transports

  datatype TransportKind = StdioKind | SseKind

  /** `string.IsNullOrEmpty`. */
  predicate IsNullOrEmpty(s: Option<string>) {
    s.None? || s.value == ""
  }

  /** Which transport a configuration gets, or why it gets none: the declared
      transport type decides, and only the field that type needs is checked
      (a command for stdio, a URL for SSE). An undeclared type value is named
      by its number in the message. */
  function Select(config: McpServerConfig): (r: Result<TransportKind, Exception>)
    ensures r.Ok? <==> (config.transport == Stdio && !IsNullOrEmpty(config.command))
                       || (config.transport == Sse && !IsNullOrEmpty(config.url))
    ensures r.Ok? ==> (r.value == StdioKind <==> config.transport == Stdio)
    ensures r.Err? ==> r.error.kind == Argument
    ensures config.transport.Undefined? ==> r.error.message == "Unknown transport type: " + IntToString(config.transport.code)
  {
    match config.transport
    case Stdio =>
      if IsNullOrEmpty(config.command) then Err(Exception(Argument, "Stdio transport requires Command to be set"))
      else Ok(StdioKind)
    case Sse =>
      if IsNullOrEmpty(config.url) then Err(Exception(Argument, "SSE transport requires Url to be set"))
      else Ok(SseKind)
    case Undefined(code) => Err(Exception(Argument, "Unknown transport type: " + IntToString(code)))
  }

  /** Build the transport `Select` chooses: new, valid, not yet initialized,
      and holding the configuration it was given. */
  method Create(config: McpServerConfig, host: HostEnvironment) returns (r: Result<Transport, Exception>)
    ensures r.Ok? <==> Select(config).Ok?
    ensures r.Err? ==> r.error == Select(config).error
    ensures r.Ok? ==> && fresh(r.value.Obj()) && r.value.Valid() && !r.value.IsInitialized()
                      && r.value.Config() == config
                      && (r.value.StdioT? <==> Select(config).value == StdioKind)
  {
    var kind := Select(config);
    if kind.Err? {
      return Err(kind.error);
    }
    if kind.value == StdioKind {
      var t := new StdioTransport(config, host);
      r := Ok(StdioT(t));
    } else {
      var t := new SseTransport(config, host);
      r := Ok(SseT(t));
    }
  }

  /** The choice looks at nothing but the transport type and the one field
      that type needs: two configurations that agree on those get the same
      answer, whatever their other fields hold. */
  lemma SelectReadsOnlyItsField(a: McpServerConfig, b: McpServerConfig)
    requires a.transport == b.transport
    requires a.transport == Stdio ==> a.command == b.command
    requires a.transport == Sse ==> a.url == b.url
    ensures Select(a) == Select(b)
  {
  }

  /** Distinct undeclared transport values are reported with distinct messages. */
  lemma UnknownTypeMessagesDiffer(a: McpServerConfig, b: McpServerConfig)
    requires a.transport.Undefined? && b.transport.Undefined?
    requires a.transport.code != b.transport.code
    ensures Select(a).error.message != Select(b).error.message
  {
    var prefix := "Unknown transport type: ";
    var ma, mb := IntToString(a.transport.code), IntToString(b.transport.code);
    if prefix + ma == prefix + mb {
      assert ma == (prefix + ma)[|prefix|..];
      assert mb == (prefix + mb)[|prefix|..];
      IntToStringInjective(a.transport.code, b.transport.code);
    }
  }
}
