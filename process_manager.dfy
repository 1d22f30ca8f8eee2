/** The process registry: one child process per configured server, started on
    first request, killed on shutdown, all killed once when the manager is
    disposed. */
module ProcessManager {
  import opened Wrappers
  import opened Models
  import opened JsonRpc
  import opened Platform
  import StdioTransports

  /** A started server: the child, its write lock, a flag the owner may set,
      and the two pipes. */
  class McpServerProcess {
    var process: ChildProcess
    var writeLockDisposed: bool
    var isInitialized: bool
    /** Every message written to the child's standard input. */
    var stdin: seq<Message>
    /** The lines the child has written and nobody has read yet. */
    var stdout: seq<string>

    constructor(pid: nat, output: seq<string>)
      ensures process == ChildProcess(pid, false, false) && !writeLockDisposed && !isInitialized
      ensures stdin == [] && stdout == output
    {
      process := ChildProcess(pid, false, false);
      writeLockDisposed := false;
      isInitialized := false;
      stdin := [];
      stdout := output;
    }

    /** Release the write lock and the process handle. */
    method Dispose()
      modifies this
      ensures process == old(process).(disposed := true) && writeLockDisposed
      ensures isInitialized == old(isInitialized) && stdin == old(stdin) && stdout == old(stdout)
    {
      writeLockDisposed := true;
      process := process.(disposed := true);
    }
  }

  /** The start description: as the stdio transport's, but the configured
      environment variables are never added, so the child inherits exactly the
      bridge's environment. */
  function StartInfo(config: McpServerConfig, host: HostEnvironment): (r: ProcessStartInfo)
    ensures r.environment == host.variables
    ensures r == StdioTransports.StartInfoFor(config, host).(environment := host.variables)
  {
    StdioTransports.CreateProcessStartInfo(config, host)
  }

  /** The child after a kill attempt and disposal: exited if it had already,
      or if the kill went through; released in every case. */
  function AfterKill(child: ChildProcess, kill: nat -> Option<Exception>): (r: ChildProcess)
    ensures r.pid == child.pid && r.disposed
    ensures r.exited <==> child.exited || kill(child.pid).None?
  {
    child.(exited := child.exited || kill(child.pid).None?, disposed := true)
  }

  /** Kill the child unless it has exited, ignoring any failure, and always
      dispose of the wrapper. */
  method KillProcess(p: McpServerProcess, host: HostEnvironment)
    modifies p
    ensures p.process == AfterKill(old(p.process), host.kill) && p.writeLockDisposed
    ensures p.isInitialized == old(p.isInitialized) && p.stdin == old(p.stdin) && p.stdout == old(p.stdout)
  {
    if !p.process.exited {
      var failure := host.kill(p.process.pid);
      if failure.None? {
        p.process := p.process.(exited := true);
      }
    }
    p.Dispose();
  }

  class McpProcessManager {
    const settings: McpServersSettings
    const host: HostEnvironment
    /** The running servers, by name. */
    var processes: map<string, McpServerProcess>
    var disposed: bool
    /** Every process wrapper this manager has registered. */
    ghost var Repr: set<object>

    /** Only configured servers are registered, each with its own wrapper. */
    ghost predicate Registered()
      reads this
    {
      && this !in Repr
      && (forall name :: name in processes ==> processes[name] in Repr && name in settings.servers)
      && (forall a, b :: a in processes && b in processes && a != b ==> processes[a] != processes[b])
    }

    /** Registered wrappers are live: a wrapper is disposed only once it has
        left the registry. */
    ghost predicate Valid()
      reads this, Repr
    {
      && Registered()
      && forall name :: name in processes ==> !processes[name].writeLockDisposed
    }

    constructor(settings: McpServersSettings, host: HostEnvironment)
      ensures Valid() && fresh(Repr)
      ensures this.settings == settings && this.host == host
      ensures processes == map[] && !disposed
    {
      this.settings := settings;
      this.host := host;
      processes := map[];
      disposed := false;
      Repr := {};
    }

    /** A server exists when it is one of the configured names. */
    predicate ServerExists(serverName: string): (b: bool)
      ensures b <==> serverName in settings.order
    {
      serverName in settings.servers
    }

    /** A server is running while its process is registered. */
    predicate IsServerRunning(serverName: string)
      reads this
    {
      serverName in processes
    }

    /** Only configured servers are ever registered, so a running server is a
        configured one. */
    lemma RunningServersExist(serverName: string)
      requires Registered()
      ensures IsServerRunning(serverName) ==> ServerExists(serverName)
    {
    }

    /** The configured names, each once. */
    function GetConfiguredServers(): (r: seq<string>)
      ensures forall name :: name in r <==> ServerExists(name)
      ensures forall i, j :: 0 <= i < j < |r| ==> r[i] != r[j]
      ensures |r| == |settings.servers|
    {
      OrderCount(settings);
      settings.order
    }

    /** The configuration of a server, or nothing when it is not configured. */
    function GetServerConfig(serverName: string): (r: Option<McpServerConfig>)
      ensures r.Some? <==> ServerExists(serverName)
      ensures r.Some? ==> r.value == settings.servers[serverName]
    {
      if serverName in settings.servers then Some(settings.servers[serverName]) else None
    }

    /** The number of running servers: exactly the configured servers reported
        running, so never more than are configured. */
    function GetActiveServerCount(): (r: nat)
      reads this, Repr
      requires Valid()
      ensures r == |set name | name in settings.servers && IsServerRunning(name)|
      ensures r <= |settings.servers|
    {
      assert (set name | name in settings.servers && IsServerRunning(name)) == processes.Keys;
      SubsetCardinality(processes.Keys, settings.servers.Keys);
      |processes|
    }

    /** The unread output of the process `GetOrStartServer` hands out for
        `serverName`: the registered process's, or else that of the child
        starting the server gives; none when it hands out no process. */
    ghost function PendingOutput(serverName: string): Option<seq<string>>
      reads this, Repr
      requires Valid()
    {
      if serverName in processes then Some(processes[serverName].stdout)
      else if serverName !in settings.servers then None
      else match host.spawn(StartInfo(settings.servers[serverName], host))
        case SpawnFailed(_) => None
        case Spawned(_, output) => Some(output)
    }

    /** The server's running process; else, for a configured server, a newly
        started one, registered under its name. Nothing is registered when the
        start fails. */
    method GetOrStartServer(serverName: string) returns (r: Result<McpServerProcess, Exception>)
      requires Valid()
      modifies this
      ensures Valid() && fresh(Repr - old(Repr))
      ensures disposed == old(disposed)
      ensures r.Ok? ==> serverName in processes && processes[serverName] == r.value && r.value in Repr
      ensures serverName in old(processes) ==> r == Ok(old(processes)[serverName]) && processes == old(processes) && Repr == old(Repr)
      ensures serverName !in settings.servers ==> r == Err(NotFoundError(serverName)) && processes == old(processes)
      ensures serverName !in old(processes) && serverName in settings.servers ==>
                match host.spawn(StartInfo(settings.servers[serverName], host))
                case SpawnFailed(e) => r == Err(e) && processes == old(processes)
                case Spawned(pid, output) =>
                  && r.Ok? && fresh(r.value) && processes == old(processes)[serverName := r.value]
                  && r.value.process == ChildProcess(pid, false, false) && !r.value.writeLockDisposed
                  && !r.value.isInitialized && r.value.stdin == [] && r.value.stdout == output
      ensures r.Ok? <==> old(PendingOutput(serverName)).Some?
      ensures r.Ok? ==> r.value.stdout == old(PendingOutput(serverName)).value && !r.value.writeLockDisposed
    {
      if serverName in processes {
        return Ok(processes[serverName]);
      }
      if serverName !in settings.servers {
        return Err(NotFoundError(serverName));
      }
      var outcome := host.spawn(StartInfo(settings.servers[serverName], host));
      if outcome.SpawnFailed? {
        return Err(outcome.error);
      }
      var started := new McpServerProcess(outcome.pid, outcome.output);
      processes := processes[serverName := started];
      Repr := Repr + {started};
      r := Ok(started);
    }

    /** Remove the server's process, if any, then kill and dispose of it. */
    method ShutdownServer(serverName: string)
      requires Valid()
      modifies this, Repr
      ensures Valid() && Repr == old(Repr) && disposed == old(disposed)
      ensures processes == old(processes) - {serverName}
      ensures serverName in old(processes) ==>
                var p := old(processes)[serverName];
                p.process == AfterKill(old(p.process), host.kill) && p.writeLockDisposed
      ensures forall name :: name in processes ==> unchanged(processes[name])
    {
      if serverName !in processes {
        return;
      }
      var p := processes[serverName];
      processes := processes - {serverName};
      KillProcess(p, host);
    }

    /** Kill and dispose of every process, then forget them all; a second
        call does nothing. */
    method Dispose()
      requires Valid()
      modifies this, Repr
      ensures Valid() && Repr == old(Repr) && disposed
      ensures old(disposed) ==> processes == old(processes) && unchanged(Repr)
      ensures !old(disposed) ==> processes == map[]
      ensures !old(disposed) ==> forall name :: name in old(processes) ==>
                var p := old(processes)[name];
                p.process == AfterKill(old(p.process), host.kill) && p.writeLockDisposed
    {
      if disposed {
        return;
      }
      disposed := true;
      var pending := processes.Keys;
      while pending != {}
        invariant pending <= processes.Keys
        invariant processes == old(processes) && Repr == old(Repr) && disposed
        invariant Registered()
        invariant forall name :: name in pending ==> unchanged(processes[name])
        invariant forall name :: name in processes && name !in pending ==>
                    processes[name].process == AfterKill(old(processes[name].process), host.kill)
                    && processes[name].writeLockDisposed
        decreases pending
      {
        var name :| name in pending;
        KillProcess(processes[name], host);
        pending := pending - {name};
      }
      processes := map[];
    }
  }
}
