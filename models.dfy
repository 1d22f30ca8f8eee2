/** The bridge's data: server configuration, MCP tool-protocol payloads, the
    uniform invocation response, and the exceptions operations raise. */
module Models {
  import opened Wrappers

  // ---------------------------------------------------------------------------
  // Configuration
  // ---------------------------------------------------------------------------

  /** How a server is reached. The enum is backed by a 32-bit `int` and can
      hold any value of it, so a value other than the two declared members
      (`Stdio` = 0, `Sse` = 1) is kept as `Undefined(code)`. */
  datatype McpTransportType = Stdio | Sse | Undefined(code: UndeclaredTransportCode)

  /** A 32-bit value that names neither declared transport. */
  type UndeclaredTransportCode = c: int | -0x8000_0000 <= c < 0x8000_0000 && c != 0 && c != 1 witness 2

  /** One configured server. Stdio servers use command/args/environment/
      workingDirectory; SSE servers use url/headers/apiKeyEnvVar. */
  datatype McpServerConfig = McpServerConfig(
    transport: McpTransportType,
    command: Option<string>,
    args: seq<string>,
    environment: map<string, string>,
    workingDirectory: Option<string>,
    url: Option<string>,
    headers: map<string, string>,
    apiKeyEnvVar: Option<string>)

  /** A freshly bound configuration entry: stdio, with empty arguments,
      environment and headers and no other field set. */
  function DefaultServerConfig(): McpServerConfig {
    McpServerConfig(Stdio, None, [], map[], None, None, map[], None)
  }

  /** The configured servers: a dictionary, kept with the order in which it
      enumerates its keys. */
  datatype ServerTable = ServerTable(servers: map<string, McpServerConfig>, order: seq<string>) {
    /** Every key is enumerated exactly once. */
    ghost predicate WellFormed() {
      && (forall i, j :: 0 <= i < j < |order| ==> order[i] != order[j])
      && (forall i :: 0 <= i < |order| ==> order[i] in servers)
      && (forall name :: name in servers ==> name in order)
    }
  }

  type McpServersSettings = t: ServerTable | t.WellFormed() witness ServerTable(map[], [])

  /** The enumeration lists exactly as many names as there are servers. */
  lemma OrderCount(t: ServerTable)
    requires t.WellFormed()
    ensures |t.order| == |t.servers|
    ensures (set name | name in t.order) == t.servers.Keys
  {
    DistinctCardinality(t.order);
    assert (set name | name in t.order) == t.servers.Keys;
  }

  /** A distinct sequence has as many members as elements. */
  lemma {:induction false} DistinctCardinality(s: seq<string>)
    requires forall i, j :: 0 <= i < j < |s| ==> s[i] != s[j]
    ensures |set x | x in s| == |s|
    decreases |s|
  {
    if s != [] {
      DistinctCardinality(s[1..]);
      var rest := set x | x in s[1..];
      assert (set x | x in s) == rest + {s[0]};
      assert forall k :: 0 <= k < |s[1..]| ==> s[1..][k] == s[k + 1] != s[0];
      assert s[0] !in rest;
    }
  }

  /** A subset is no larger than its superset. */
  lemma {:induction false} SubsetCardinality(a: set<string>, b: set<string>)
    requires a <= b
    ensures |a| <= |b|
    decreases |b|
  {
    if a != {} {
      var x :| x in a;
      SubsetCardinality(a - {x}, b - {x});
    }
  }

  /** The exception both orchestrators raise for a name that is not configured. */
  function NotFoundError(serverName: string): Exception {
    Exception(Argument, "Server '" + serverName + "' not found in configuration")
  }

  // ---------------------------------------------------------------------------
  // Tool-protocol payloads
  // ---------------------------------------------------------------------------

  /** A JSON value the bridge passes along without looking inside. */
  datatype Value = Str(s: string) | Num(n: int) | Bool(b: bool) | Null | Opaque(tag: nat)

  /** A tool parameter dictionary (`Dictionary<string, object>`). */
  type Parameters = map<string, Value>

  /** One content item of a tool result. Its `Type` defaults to "text". */
  datatype McpContentItem = McpContentItem(contentType: string, text: Option<string>)

  function TextItem(text: string): McpContentItem {
    McpContentItem("text", Some(text))
  }

  datatype McpCallToolResult = McpCallToolResult(content: seq<McpContentItem>, isError: bool)

  datatype McpTool = McpTool(name: string, description: Option<string>, inputSchema: Option<Value>)

  datatype McpToolsResult = McpToolsResult(tools: seq<McpTool>)

  // ---------------------------------------------------------------------------
  // The bridge's own API shapes
  // ---------------------------------------------------------------------------

  datatype InvokeRequest = InvokeRequest(tool: string, params: Option<Parameters>)

  /** The uniform, transport-independent outcome of a tool invocation.
      `result` is the tool's content list when there is one. */
  datatype InvokeResponse = InvokeResponse(success: bool, result: Option<seq<McpContentItem>>, error: Option<string>)

  datatype ServerInfo = ServerInfo(name: string, command: Option<string>, args: seq<string>, isRunning: bool)

  // ---------------------------------------------------------------------------
  // Exceptions
  // ---------------------------------------------------------------------------

  datatype ExceptionKind =
    | InvalidOperation    // protocol errors, "not initialized", missing SSE endpoint
    | Argument            // unknown server, bad transport configuration
    | HttpRequest         // non-success HTTP status or network failure
    | Json                // malformed JSON reply
    | NullReference       // a reply that deserialises to null
    | Win32               // the operating system refused to start a process
    | ObjectDisposed      // use of a disposed write lock

  /** A thrown exception: its type and its `Message`. */
  datatype Exception = Exception(kind: ExceptionKind, message: string)
}
