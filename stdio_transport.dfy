/** The transport to a local MCP server: a child process spoken to with one
    JSON-RPC message per line on its standard input, answered with one message
    per line on its standard output. */
module StdioTransports {
  import opened Wrappers
  import opened Text
  import opened Models
  import opened JsonRpc
  import opened Platform

  // ---------------------------------------------------------------------------
  // Starting the child process
  // ---------------------------------------------------------------------------

  /** The start description before the configured variables are added: the
      command, the arguments joined with single spaces, the configured working
      directory or else the current one, no shell, every stream redirected, no
      window, and the bridge's own environment. */
  function CreateProcessStartInfo(config: McpServerConfig, host: HostEnvironment): ProcessStartInfo {
    ProcessStartInfo(
      fileName := config.command,
      arguments := JoinWithSpace(config.args),
      workingDirectory := config.workingDirectory.GetOr(host.currentDirectory),
      environment := host.variables,
      useShellExecute := false,
      redirectStandardInput := true,
      redirectStandardOutput := true,
      redirectStandardError := true,
      createNoWindow := true)
  }

  /** The child runs the configured command directly, not through a shell,
      without a window, with all three standard streams redirected, in the
      configured working directory or else the bridge's current one, and
      with the bridge's own environment. */
  lemma StartInfoSettings(config: McpServerConfig, host: HostEnvironment)
    ensures var r := CreateProcessStartInfo(config, host);
            && r.fileName == config.command && r.environment == host.variables
            && (config.workingDirectory.Some? ==> r.workingDirectory == config.workingDirectory.value)
            && (config.workingDirectory.None? ==> r.workingDirectory == host.currentDirectory)
            && !r.useShellExecute && r.createNoWindow
            && r.redirectStandardInput && r.redirectStandardOutput && r.redirectStandardError
  {
  }

  /** The argument string determines the arguments, as long as there is at
      least one and none contains a space: two such configurations that give
      the same argument string have the same arguments. */
  lemma ArgumentStringDeterminesArguments(a: McpServerConfig, b: McpServerConfig, host: HostEnvironment)
    requires a.args != [] && forall k :: 0 <= k < |a.args| ==> HasNoSpace(a.args[k])
    requires b.args != [] && forall k :: 0 <= k < |b.args| ==> HasNoSpace(b.args[k])
    requires CreateProcessStartInfo(a, host).arguments == CreateProcessStartInfo(b, host).arguments
    ensures a.args == b.args
  {
    JoinWithSpaceInjective(a.args, b.args);
  }

  /** The child's complete start description: the configured variables laid
      over the bridge's environment. */
  function StartInfoFor(config: McpServerConfig, host: HostEnvironment): ProcessStartInfo {
    CreateProcessStartInfo(config, host).(environment := host.variables + config.environment)
  }

  /** Copy each configured variable into the start description, replacing an
      inherited variable of the same name. */
  method AddEnvironmentVariables(startInfo: ProcessStartInfo, variables: map<string, string>) returns (r: ProcessStartInfo)
    ensures r.environment.Keys == startInfo.environment.Keys + variables.Keys
    ensures forall name :: name in variables ==> r.environment[name] == variables[name]
    ensures forall name :: name in startInfo.environment && name !in variables ==>
              r.environment[name] == startInfo.environment[name]
    ensures r == startInfo.(environment := r.environment)
  {
    r := startInfo;
    var pending := variables.Keys;
    while pending != {}
      invariant pending <= variables.Keys
      invariant r == startInfo.(environment := r.environment)
      invariant r.environment.Keys == startInfo.environment.Keys + (variables.Keys - pending)
      invariant forall name :: name in variables && name !in pending ==> r.environment[name] == variables[name]
      invariant forall name :: name in startInfo.environment && name !in variables.Keys - pending ==>
                  r.environment[name] == startInfo.environment[name]
      decreases pending
    {
      var name :| name in pending;
      r := r.(environment := r.environment[name := variables[name]]);
      pending := pending - {name};
    }
  }

  /** The description `StartProcess` hands to the operating system is the
      configured one: the child sees exactly the bridge's environment with the
      configured variables overriding it. */
  method StartProcessInfo(config: McpServerConfig, host: HostEnvironment) returns (info: ProcessStartInfo)
    ensures info == StartInfoFor(config, host)
    ensures info.fileName == config.command && !info.useShellExecute
    ensures info.redirectStandardInput && info.redirectStandardOutput && info.redirectStandardError
    ensures config.workingDirectory.None? ==> info.workingDirectory == host.currentDirectory
    ensures forall name :: name in config.environment ==> info.environment[name] == config.environment[name]
  {
    info := AddEnvironmentVariables(CreateProcessStartInfo(config, host), config.environment);
    assert info.environment == host.variables + config.environment;
  }

  /** The semaphore that serialises writes: not yet created, or created and
      possibly disposed. */
  datatype WriteLock = NoLock | Lock(disposed: bool)

  // ---------------------------------------------------------------------------
  // Errors
  // ---------------------------------------------------------------------------

  function NotInitializedError(): Exception {
    Exception(InvalidOperation, "Transport not initialized")
  }

  /** What a released process handle throws when it is asked about its child. */
  function NoProcessError(): Exception {
    Exception(InvalidOperation, "No process is associated with this object.")
  }


  /** The `notifications/initialized` notification as this transport writes
      it: no `params` member at all. */
  function InitializedNotification(): Message {
    Notification(JsonRpcVersion, MethodInitialized, None)
  }

  // ---------------------------------------------------------------------------
  // The transport
  // ---------------------------------------------------------------------------

  class StdioTransport {
    const config: McpServerConfig
    const host: HostEnvironment
    var process: Option<ChildProcess>
    var writeLock: WriteLock
    var requestId: int
    var isInitialized: bool
    /** Every message written to the current child's standard input. */
    var stdin: seq<Message>
    /** The lines the current child has written and nobody has read yet. */
    var stdout: seq<string>
    /** The request ids handed out so far. */
    ghost var issued: seq<int>

    ghost predicate Valid()
      reads this
    {
      && IssuedInOrder(issued, requestId)
      && (isInitialized ==> Ready())
    }

    /** `EnsureInitialized` passes: a process and a write lock exist. */
    predicate Ready()
      reads this
    {
      process.Some? && writeLock.Lock?
    }

    /** What the next request's reader finds on the child's output. */
    ghost function PendingScan(): Scan
      reads this
    {
      ScanForResponse(stdout, NextId(requestId))
    }

    /** The value the next request yields: the disposed lock refuses it, else
        the reply read from the output is parsed. */
    ghost function PendingReply<T>(decode: string -> Decoded<T>): Result<Option<T>, Exception>
      reads this
      requires Ready()
    {
      if writeLock.disposed then Err(DisposedError()) else ParseResponse(PendingScan().line, decode)
    }

    /** One request went out: the counter moved to its id, the request was
        written, and its reply (and every line before it) was read. Nothing
        else changed. */
    twostate predicate RequestExchanged(methodName: string, params: Params)
      reads this
    {
      && old(Ready())
      && requestId == NextId(old(requestId))
      && issued == old(issued) + [requestId]
      && process == old(process) && writeLock == old(writeLock) && isInitialized == old(isInitialized)
      && if old(writeLock).disposed then stdin == old(stdin) && stdout == old(stdout)
         else stdin == old(stdin) + [NewRequest(requestId, methodName, params)]
              && stdout == old(stdout)[old(PendingScan()).consumed..]
    }

    constructor(config: McpServerConfig, host: HostEnvironment)
      ensures Valid()
      ensures this.config == config && this.host == host
      ensures process.None? && writeLock.NoLock? && requestId == 0 && !isInitialized
      ensures stdin == [] && stdout == [] && issued == []
    {
      this.config := config;
      this.host := host;
      process := None;
      writeLock := NoLock;
      requestId := 0;
      isInitialized := false;
      stdin := [];
      stdout := [];
      issued := [];
    }

    /** Start the child and perform the handshake, unless already initialized.
        A failed start changes nothing. A failed handshake leaves the new child
        and lock in place but the transport uninitialized; a later call starts
        another child. */
    method InitializeAsync() returns (r: Result<(), Exception>)
      requires Valid()
      modifies this
      ensures Valid()
      ensures r.Ok? <==> isInitialized
      ensures old(isInitialized) ==> r == Ok(()) && unchanged(this)
      ensures !old(isInitialized) && host.spawn(StartInfoFor(config, host)).SpawnFailed? ==>
                r == Err(host.spawn(StartInfoFor(config, host)).error) && unchanged(this)
      ensures !old(isInitialized) && host.spawn(StartInfoFor(config, host)).Spawned? ==>
                var child := host.spawn(StartInfoFor(config, host));
                var id := NextId(old(requestId));
                var scan := ScanForResponse(child.output, id);
                var reply := ParseResponse(scan.line, host.json.untyped);
                && process == Some(ChildProcess(child.pid, false, false)) && writeLock == Lock(false)
                && requestId == id && issued == old(issued) + [id]
                && stdout == child.output[scan.consumed..]
                && stdin == [NewRequest(id, MethodInitialize, HandshakeParams())]
                            + (if reply.Ok? then [InitializedNotification()] else [])
                && isInitialized == reply.Ok?
                && (reply.Err? ==> r == Err(reply.error))
                && (reply.Ok? ==> r == Ok(()))
    {
      if isInitialized {
        return Ok(());
      }
      var info := StartProcessInfo(config, host);
      var outcome := host.spawn(info);
      if outcome.SpawnFailed? {
        return Err(outcome.error);
      }
      process := Some(ChildProcess(outcome.pid, false, false));
      stdin := [];
      stdout := outcome.output;
      writeLock := Lock(false);
      ghost var id := NextId(requestId);
      ghost var scan := ScanForResponse(outcome.output, id);
      var reply := SendRequest(MethodInitialize, HandshakeParams(), host.json.untyped);
      assert requestId == id && issued == old(issued) + [id];
      assert stdin == [NewRequest(id, MethodInitialize, HandshakeParams())] && stdout == outcome.output[scan.consumed..];
      assert reply == ParseResponse(scan.line, host.json.untyped);
      if reply.Err? {
        return Err(reply.error);
      }
      var sent := SendNotification(MethodInitialized);
      if sent.Err? {
        return Err(sent.error);
      }
      isInitialized := true;
      r := Ok(());
    }

    /** `tools/list`: the listed tools, none when no reply arrives. */
    method ListToolsAsync() returns (r: Result<seq<McpTool>, Exception>)
      requires Valid()
      modifies this
      ensures Valid()
      ensures isInitialized == old(isInitialized)
      ensures !old(Ready()) ==> r == Err(NotInitializedError()) && unchanged(this)
      ensures old(Ready()) ==> RequestExchanged(MethodToolsList, NullParams)
                               && r == ToolsFrom(old(PendingReply(host.json.tools)))
    {
      var reply := SendRequest(MethodToolsList, NullParams, host.json.tools);
      r := ToolsFrom(reply);
    }

    /** `tools/call` with the name and the arguments (an empty dictionary when
        none are given); no reply becomes the "No response" result. */
    method CallToolAsync(toolName: string, parameters: Option<Parameters>) returns (r: Result<McpCallToolResult, Exception>)
      requires Valid()
      modifies this
      ensures Valid()
      ensures isInitialized == old(isInitialized)
      ensures !old(Ready()) ==> r == Err(NotInitializedError()) && unchanged(this)
      ensures old(Ready()) ==> RequestExchanged(MethodToolsCall, CallParams(toolName, parameters))
                               && r == CallResultFrom(old(PendingReply(host.json.callResult)))
    {
      var reply := SendRequest(MethodToolsCall, CallParams(toolName, parameters), host.json.callResult);
      r := CallResultFrom(reply);
    }

    /** The exception terminating the child would throw: none when there is
        no child or it has already exited; asking a released process handle
        whether it has exited throws. */
    function KillFailure(): Option<Exception>
      reads this
    {
      if process.None? then None
      else if process.value.disposed then Some(NoProcessError())
      else if process.value.exited then None
      else host.kill(process.value.pid)
    }

    /** Kill the child if it is still running, then release the lock and the
        process handle. A kill that throws propagates and releases nothing; so
        does a second disposal, whose process handle is already released. */
    method DisposeAsync() returns (r: Result<(), Exception>)
      requires Valid()
      modifies this
      ensures Valid()
      ensures r.Err? <==> old(KillFailure()).Some?
      ensures r.Err? ==> r.error == old(KillFailure()).value && unchanged(this)
      ensures old(process).Some? && old(process).value.disposed ==> r == Err(NoProcessError())
      ensures r.Ok? ==> && process == (if old(process).Some? then Some(old(process).value.(exited := true, disposed := true)) else None)
                        && writeLock == (if old(writeLock).Lock? then Lock(true) else NoLock)
      ensures requestId == old(requestId) && issued == old(issued) && isInitialized == old(isInitialized)
      ensures stdin == old(stdin) && stdout == old(stdout)
    {
      r := TerminateProcess();
      if r.Err? {
        return;
      }
      if writeLock.Lock? {
        writeLock := Lock(true);
      }
      if process.Some? {
        process := Some(process.value.(disposed := true));
      }
    }

    /** Kill the child unless there is none or it has already exited; a
        released process handle cannot be asked and throws. */
    method TerminateProcess() returns (r: Result<(), Exception>)
      requires Valid()
      modifies this
      ensures Valid()
      ensures r.Err? <==> old(KillFailure()).Some?
      ensures r.Err? ==> r.error == old(KillFailure()).value && unchanged(this)
      ensures old(process).Some? && old(process).value.disposed ==> r == Err(NoProcessError())
      ensures r.Ok? ==> process == (if old(process).Some? then Some(old(process).value.(exited := true)) else None)
      ensures writeLock == old(writeLock) && requestId == old(requestId) && issued == old(issued)
      ensures isInitialized == old(isInitialized) && stdin == old(stdin) && stdout == old(stdout)
    {
      if process.None? {
        return Ok(());
      }
      if process.value.disposed {
        return Err(NoProcessError());
      }
      if process.value.exited {
        return Ok(());
      }
      var failure := host.kill(process.value.pid);
      if failure.Some? {
        return Err(failure.value);
      }
      process := Some(process.value.(exited := true));
      r := Ok(());
    }

    /** Send one request and read its reply: refused before initialization
        (without using an id); otherwise the next id is taken, the request is
        written and the reply for that id is read and parsed. */
    method SendRequest<T>(methodName: string, params: Params, decode: string -> Decoded<T>) returns (r: Result<Option<T>, Exception>)
      requires Valid()
      modifies this
      ensures Valid()
      ensures !old(Ready()) ==> r == Err(NotInitializedError()) && unchanged(this)
      ensures old(Ready()) ==> RequestExchanged(methodName, params) && r == old(PendingReply(decode))
    {
      if !Ready() {
        return Err(NotInitializedError());
      }
      NextIdExtends(issued, requestId);
      var id := NextId(requestId);
      requestId := id;
      issued := issued + [id];
      var written := WriteToStdin(NewRequest(id, methodName, params));
      if written.Err? {
        return Err(written.error);
      }
      var scan := ReadResponse(stdout, id);
      stdout := stdout[scan.consumed..];
      r := ParseResponse(scan.line, decode);
    }

    /** Send a notification, which has no `params` member and no reply. */
    method SendNotification(methodName: string) returns (r: Result<(), Exception>)
      requires Valid()
      modifies this
      ensures Valid()
      ensures !old(Ready()) ==> r == Err(NotInitializedError()) && unchanged(this)
      ensures old(Ready()) && old(writeLock).disposed ==> r == Err(DisposedError()) && unchanged(this)
      ensures old(Ready()) && !old(writeLock).disposed ==>
                r == Ok(()) && stdin == old(stdin) + [Notification(JsonRpcVersion, methodName, None)]
      ensures process == old(process) && writeLock == old(writeLock) && requestId == old(requestId)
      ensures issued == old(issued) && isInitialized == old(isInitialized) && stdout == old(stdout)
    {
      if !Ready() {
        return Err(NotInitializedError());
      }
      r := WriteToStdin(Notification(JsonRpcVersion, methodName, None));
    }

    /** Write one message as a line, under the write lock. */
    method WriteToStdin(message: Message) returns (r: Result<(), Exception>)
      requires Valid() && Ready()
      modifies this`stdin
      ensures writeLock.disposed ==> r == Err(DisposedError()) && stdin == old(stdin)
      ensures !writeLock.disposed ==> r == Ok(()) && stdin == old(stdin) + [message]
    {
      if writeLock.disposed {
        return Err(DisposedError());
      }
      stdin := stdin + [message];
      r := Ok(());
    }
  }

  // ---------------------------------------------------------------------------
  // Properties
  // ---------------------------------------------------------------------------

  /** Correlation over the pipe: when the child answers the next request with a
      compact reply after lines that are not for it, the request yields exactly
      that reply's result, and the lines after it stay for later requests. */
  lemma ReplyAfterNoiseIsParsed<T>(before: seq<string>, tail: string, after: seq<string>, id: int, decode: string -> Decoded<T>)
    requires forall k :: 0 <= k < |before| ==> !Accepts(before[k], id)
    ensures var lines := before + [CompactReplyHead(id) + tail] + after;
            var scan := ScanForResponse(lines, id);
            && lines[scan.consumed..] == after
            && ParseResponse(scan.line, decode) == ParseReply(CompactReplyHead(id) + tail, decode)
  {
    var lines := before + [CompactReplyHead(id) + tail] + after;
    CorrelatedReplyIsDelivered(before, tail, after, id);
    assert lines[|before| + 1..] == after;
  }

  /** A child whose output ends without answering the request (it printed only
      empty or unrelated lines, then closed its output) makes `tools/call`
      yield the "No response" result rather than fail. */
  lemma SilentChildYieldsNoResponse(lines: seq<string>, id: int, decode: string -> Decoded<McpCallToolResult>)
    requires forall k :: 0 <= k < |lines| ==> !Accepts(lines[k], id)
    ensures CallResultFrom(ParseResponse(ScanForResponse(lines, id).line, decode)) == Ok(CreateNoResponseError())
  {
    ScanSkipsRejected(lines, id, |lines|);
    assert lines[|lines|..] == [];
  }
}
