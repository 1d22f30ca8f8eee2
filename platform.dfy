/** What the bridge gets from the machine it runs on and from the libraries it
    calls: the working directory and environment variables, starting a child
    process, the HTTP client, and the JSON deserialiser. Each is a value or a
    function here, so every operation of the model is deterministic given its
    host. */
module Platform {
  import opened Wrappers
  import opened Models
  import opened JsonRpc

  /** The description handed to `Process.Start`. `environment` is the child's
      complete environment block. */
  datatype ProcessStartInfo = ProcessStartInfo(
    fileName: Option<string>,
    arguments: string,
    workingDirectory: string,
    environment: map<string, string>,
    useShellExecute: bool,
    redirectStandardInput: bool,
    redirectStandardOutput: bool,
    redirectStandardError: bool,
    createNoWindow: bool)

  /** What starting a process yields: the exception `Process.Start` throws, or
      a running child, given by its id and the lines it writes to its standard
      output. */
  datatype SpawnOutcome = SpawnFailed(error: Exception) | Spawned(pid: nat, output: seq<string>)

  /** A started child: its id, whether it has exited, and whether its handle
      has been released. */
  datatype ChildProcess = ChildProcess(pid: nat, exited: bool, disposed: bool)

  /** An HTTP request as the bridge's client sends it: the target (absent when
      the configuration has no URL), the client's default headers and its bearer
      token, and for a POST the JSON-RPC message that forms its body. */
  datatype HttpRequest =
    | HttpGet(url: Option<string>, accept: string, headers: map<string, string>, authorization: Option<string>)
    | HttpPost(url: Option<string>, body: Message, headers: map<string, string>, authorization: Option<string>)

  /** An HTTP exchange's outcome: a status code with the body's lines, or the
      exception the client throws when it gets no response at all (no route,
      refused connection, an unusable URL). */
  datatype HttpReply = HttpReply(status: int, body: seq<string>) | HttpFailure(error: Exception)

  /** `EnsureSuccessStatusCode` accepts 200 through 299. */
  predicate IsSuccessStatus(status: int) {
    200 <= status <= 299
  }

  /** The exception `EnsureSuccessStatusCode` throws (its reason phrase left out). */
  function StatusError(status: int): Exception {
    Exception(HttpRequest, "Response status code does not indicate success: " + Text.IntToString(status) + ".")
  }

  /** What waiting on a disposed write lock throws. */
  function DisposedError(): Exception {
    Exception(ObjectDisposed, "Cannot access a disposed object.")
  }

  /** `JsonSerializer.Deserialize<JsonRpcResponse<T>>` for the three result
      types the bridge asks for. */
  datatype JsonCodec = JsonCodec(
    tools: string -> Decoded<McpToolsResult>,
    callResult: string -> Decoded<McpCallToolResult>,
    untyped: string -> Decoded<()>)

  /** The machine and libraries the bridge runs against. */
  datatype HostEnvironment = HostEnvironment(
    currentDirectory: string,
    variables: map<string, string>,
    spawn: ProcessStartInfo -> SpawnOutcome,
    /** What `Process.Kill` does to the child with this id: nothing thrown
        (the child is gone), or the exception it throws. */
    kill: nat -> Option<Exception>,
    http: HttpRequest -> HttpReply,
    json: JsonCodec)
}
