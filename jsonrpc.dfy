/** JSON-RPC 2.0 as the bridge speaks it: request and notification shapes, the
    MCP handshake parameters, the textual id test that correlates a reply line
    with a request, reply parsing, the line reader shared by the stdio
    transport and the legacy client, and the per-instance request-id counter. */
module JsonRpc {
  import opened Wrappers
  import opened Text
  import opened Models

  const JsonRpcVersion := "2.0"
  const ProtocolVersion := "2024-11-05"
  const ClientName := "mcp-bridge"
  const ClientVersion := "1.0.0"

  const MethodInitialize := "initialize"
  const MethodInitialized := "notifications/initialized"
  const MethodToolsList := "tools/list"
  const MethodToolsCall := "tools/call"

  // ---------------------------------------------------------------------------
  // Messages
  // ---------------------------------------------------------------------------

  datatype JsonRpcError = JsonRpcError(code: int, message: string, data: Option<Value>)

  /** A reply: `result` and `error` are both optional members. */
  datatype JsonRpcResponse<T> = JsonRpcResponse(jsonrpc: string, id: int, result: Option<T>, error: Option<JsonRpcError>)

  /** What the JSON deserialiser makes of one reply text: a response object,
      the JSON literal `null`, or an exception for text that is not valid JSON. */
  datatype Decoded<T> = Parsed(response: JsonRpcResponse<T>) | JsonNull | Malformed(message: string)

  /** The `params` member of an outgoing message. */
  datatype Params =
    | NullParams
    | InitializeParams(protocolVersion: string, capabilities: Parameters, clientName: string, clientVersion: string)
    | ToolCallParams(name: string, arguments: Parameters)

  /** An outgoing message. A notification has no id; its `paramsMember` is
      `None` when the member is left out of the object altogether. */
  datatype Message =
    | Request(jsonrpc: string, id: int, methodName: string, params: Params)
    | Notification(jsonrpc: string, methodName: string, paramsMember: Option<Params>)

  /** A request object; its `jsonrpc` member defaults to "2.0". */
  function NewRequest(id: int, methodName: string, params: Params): (m: Message)
    ensures m.Request? && m.jsonrpc == JsonRpcVersion && m.id == id && m.methodName == methodName && m.params == params
  {
    Request(JsonRpcVersion, id, methodName, params)
  }

  /** A notification whose `params` member is written, as null: the shape
      the SSE transport and the older client send. */
  function NullParamsNotification(methodName: string): Message {
    Notification(JsonRpcVersion, methodName, Some(NullParams))
  }

  /** The handshake parameters: protocol version, empty capabilities, client identity. */
  function HandshakeParams(): Params {
    InitializeParams(ProtocolVersion, map[], ClientName, ClientVersion)
  }

  /** The handshake offers protocol version 2024-11-05, no capabilities, and
      identifies the client as mcp-bridge 1.0.0. */
  lemma HandshakeIdentity()
    ensures var p := HandshakeParams();
            && p.InitializeParams? && p.protocolVersion == "2024-11-05" && p.capabilities == map[]
            && p.clientName == "mcp-bridge" && p.clientVersion == "1.0.0"
  {
  }

  /** `new { name = toolName, arguments = parameters ?? new Dictionary() }`. */
  function CallParams(toolName: string, parameters: Option<Parameters>): (p: Params)
    ensures p.ToolCallParams? && p.name == toolName
    ensures parameters.Some? ==> p.arguments == parameters.value
    ensures parameters.None? ==> p.arguments == map[]
  {
    ToolCallParams(toolName, parameters.GetOr(map[]))
  }

  // ---------------------------------------------------------------------------
  // Correlating a reply with a request id
  // ---------------------------------------------------------------------------

  /** `"id":N` as it appears in compact JSON. */
  function CompactIdText(id: int): string {
    "\"id\":" + IntToString(id)
  }

  /** `"id": N` as it appears in indented JSON. */
  function SpacedIdText(id: int): string {
    "\"id\": " + IntToString(id)
  }

  /** A text is taken as the reply to request `id` when it contains either
      spelling of the id member: plain substring containment, nothing more. */
  predicate IsResponseForId(json: string, id: int): (b: bool)
    ensures b <==> HasWindow(json, CompactIdText(id)) || HasWindow(json, SpacedIdText(id))
  {
    ContainsIffWindow(json, CompactIdText(id));
    ContainsIffWindow(json, SpacedIdText(id));
    Contains(json, CompactIdText(id)) || Contains(json, SpacedIdText(id))
  }

  /** The test is a substring test, not a comparison of numbers: a reply to
      request 10 * N + d (for N > 0 and a digit d) is also taken as the reply
      to request N, because its id text starts with N's. */
  lemma LongerIdAlsoAccepted(id: nat, d: nat, tail: string)
    requires 0 < id && d < 10
    ensures IsResponseForId(CompactReplyHead(10 * id + d) + tail, id)
  {
    var n := 10 * id + d;
    assert n / 10 == id && n % 10 == d;
    assert IntToString(n) == IntToString(id) + [DigitChar(d)];
    var front := "{\"jsonrpc\":\"2.0\",";
    assert CompactReplyHead(n) + tail == front + CompactIdText(id) + ([DigitChar(d)] + tail);
    ContainsInfix(front, CompactIdText(id), [DigitChar(d)] + tail);
  }

  /** The start of a compactly serialised reply to request `id`. */
  function CompactReplyHead(id: int): string {
    "{\"jsonrpc\":\"2.0\"," + CompactIdText(id)
  }

  /** Every compactly serialised reply is recognised as the reply to its own id,
      whatever follows the id member. */
  lemma CompactReplyIsRecognised(id: int, tail: string)
    ensures IsResponseForId(CompactReplyHead(id) + tail, id)
  {
    var front := "{\"jsonrpc\":\"2.0\",";
    assert CompactReplyHead(id) + tail == front + CompactIdText(id) + tail;
    ContainsInfix(front, CompactIdText(id), tail);
  }

  /** A text that answers some request is never empty, so skipping empty lines
      never hides a reply. */
  lemma ResponseTextIsNonEmpty(json: string, id: int)
    requires IsResponseForId(json, id)
    ensures json != ""
  {
    if Contains(json, CompactIdText(id)) {
      var i := ContainsWitness(json, CompactIdText(id));
    } else {
      var i := ContainsWitness(json, SpacedIdText(id));
    }
  }

  // ---------------------------------------------------------------------------
  // Parsing a reply
  // ---------------------------------------------------------------------------

  const NullReferenceMessage := "Object reference not set to an instance of an object."

  /** Deserialise one reply text: an `error` member becomes an exception
      "MCP error: <message>", otherwise the (possibly absent) `result` is
      returned. Malformed JSON and the literal `null` throw as well. */
  function ParseReply<T>(json: string, decode: string -> Decoded<T>): (r: Result<Option<T>, Exception>)
    ensures r.Ok? <==> decode(json).Parsed? && decode(json).response.error.None?
    ensures r.Ok? ==> r.value == decode(json).response.result
    ensures decode(json).Parsed? && decode(json).response.error.Some? ==>
              r == Err(Exception(InvalidOperation, "MCP error: " + decode(json).response.error.value.message))
    ensures decode(json).Malformed? ==> r.Err? && r.error.kind == Json
  {
    match decode(json)
    case Malformed(msg) => Err(Exception(Json, msg))
    case JsonNull => Err(Exception(NullReference, NullReferenceMessage))
    case Parsed(response) =>
      if response.error.Some? then Err(Exception(InvalidOperation, "MCP error: " + response.error.value.message))
      else Ok(response.result)
  }

  /** Parse the line a reader returned: no line (or an empty one) means "no
      result"; otherwise the line is parsed as a reply. */
  function ParseResponse<T>(line: Option<string>, decode: string -> Decoded<T>): (r: Result<Option<T>, Exception>)
    ensures (line.None? || line.value == "") ==> r == Ok(None)
    ensures line.Some? && line.value != "" ==> r == ParseReply(line.value, decode)
  {
    if line.None? || line.value == "" then Ok(None) else ParseReply(line.value, decode)
  }

  // ---------------------------------------------------------------------------
  // What `tools/list` and `tools/call` make of the reply (both transports)
  // ---------------------------------------------------------------------------

  /** The result `tools/call` yields when no reply arrives: a failed tool
      result whose only content is the text "No response". */
  function CreateNoResponseError(): (r: McpCallToolResult)
    ensures r.isError && |r.content| == 1
    ensures r.content[0].contentType == "text" && r.content[0].text == Some("No response")
  {
    McpCallToolResult([TextItem("No response")], true)
  }

  /** `result?.Tools ?? []`: no reply means no tools. */
  function ToolsFrom(reply: Result<Option<McpToolsResult>, Exception>): (r: Result<seq<McpTool>, Exception>)
    ensures reply.Err? <==> r.Err?
    ensures reply.Err? ==> r.error == reply.error
    ensures reply == Ok(None) ==> r == Ok([])
    ensures reply.Ok? && reply.value.Some? ==> r == Ok(reply.value.value.tools)
  {
    match reply
    case Err(e) => Err(e)
    case Ok(None) => Ok([])
    case Ok(Some(result)) => Ok(result.tools)
  }

  /** `result ?? CreateNoResponseError()`: no reply becomes a failed tool result. */
  function CallResultFrom(reply: Result<Option<McpCallToolResult>, Exception>): (r: Result<McpCallToolResult, Exception>)
    ensures reply.Err? <==> r.Err?
    ensures reply.Err? ==> r.error == reply.error
    ensures reply == Ok(None) ==> r == Ok(CreateNoResponseError())
    ensures reply.Ok? && reply.value.Some? ==> r == Ok(reply.value.value)
  {
    match reply
    case Err(e) => Err(e)
    case Ok(None) => Ok(CreateNoResponseError())
    case Ok(Some(result)) => Ok(result)
  }

  // ---------------------------------------------------------------------------
  // Reading the reply from a line stream
  // ---------------------------------------------------------------------------

  /** The outcome of reading for a reply: the accepted line, if any, and how
      many lines were taken from the stream. */
  datatype Scan = Scan(line: Option<string>, consumed: nat)

  /** A line the reader accepts as the reply to `id`. */
  predicate Accepts(line: string, id: int) {
    line != "" && IsResponseForId(line, id)
  }

  /** The reader's specification: the first accepted line, with everything up
      to and including it consumed; or no line, with the whole stream consumed. */
  function ScanForResponse(lines: seq<string>, id: int): (s: Scan)
    ensures s.consumed <= |lines|
    ensures s.line.Some? ==> 0 < s.consumed && s.line.value == lines[s.consumed - 1] && Accepts(s.line.value, id)
    ensures s.line.None? ==> s.consumed == |lines|
    ensures forall k :: 0 <= k < s.consumed && (s.line.None? || k < s.consumed - 1) ==> !Accepts(lines[k], id)
  {
    if lines == [] then Scan(None, 0)
    else if Accepts(lines[0], id) then Scan(Some(lines[0]), 1)
    else
      var rest := ScanForResponse(lines[1..], id);
      Scan(rest.line, rest.consumed + 1)
  }

  /** The read loop: skip empty lines and lines for other ids, return the first
      line for `expectedId`; when the stream ends first (the deadline passing
      is the stream ending) there is no line. */
  method ReadResponse(lines: seq<string>, expectedId: int) returns (s: Scan)
    ensures s == ScanForResponse(lines, expectedId)
  {
    var i := 0;
    while i < |lines|
      invariant 0 <= i <= |lines|
      invariant forall k :: 0 <= k < i ==> !Accepts(lines[k], expectedId)
    {
      var line := lines[i];
      i := i + 1;
      if line == "" {
        continue;
      }
      if IsResponseForId(line, expectedId) {
        s := Scan(Some(line), i);
        ScanSkipsRejected(lines, expectedId, i - 1);
        return;
      }
    }
    s := Scan(None, |lines|);
    ScanSkipsRejected(lines, expectedId, |lines|);
  }

  /** When the first `n` lines are all rejected, the scan is the scan of the
      rest, shifted by `n`. */
  lemma {:induction false} ScanSkipsRejected(lines: seq<string>, id: int, n: nat)
    requires n <= |lines|
    requires forall k :: 0 <= k < n ==> !Accepts(lines[k], id)
    ensures ScanForResponse(lines, id) == var s := ScanForResponse(lines[n..], id); Scan(s.line, s.consumed + n)
    decreases n
  {
    if n > 0 {
      assert lines[1..][n - 1..] == lines[n..];
      ScanSkipsRejected(lines[1..], id, n - 1);
    }
  }

  /** Correlation: a stream in which no earlier line answers request `id` and
      the next line is the compact reply to it delivers exactly that reply, and
      the lines after it stay unread. */
  lemma CorrelatedReplyIsDelivered(before: seq<string>, tail: string, after: seq<string>, id: int)
    requires forall k :: 0 <= k < |before| ==> !Accepts(before[k], id)
    ensures ScanForResponse(before + [CompactReplyHead(id) + tail] + after, id)
            == Scan(Some(CompactReplyHead(id) + tail), |before| + 1)
  {
    var lines := before + [CompactReplyHead(id) + tail] + after;
    var reply := CompactReplyHead(id) + tail;
    CompactReplyIsRecognised(id, tail);
    ResponseTextIsNonEmpty(reply, id);
    ScanSkipsRejected(lines, id, |before|);
    assert lines[|before|..][0] == reply;
  }

  // ---------------------------------------------------------------------------
  // Request ids: a 32-bit counter bumped with Interlocked.Increment
  // ---------------------------------------------------------------------------

  const Int32Min := -0x8000_0000
  const Int32Max := 0x7fff_ffff

  /** Two's-complement wrap-around of a 32-bit signed integer. */
  function WrapInt32(x: int): (r: int)
    ensures Int32Min <= r <= Int32Max
    ensures Int32Min <= x <= Int32Max ==> r == x
  {
    (x + 0x8000_0000) % 0x1_0000_0000 - 0x8000_0000
  }

  /** `Interlocked.Increment(ref counter)`: the new counter, which is also the id. */
  function NextId(counter: int): int {
    WrapInt32(counter + 1)
  }

  /** The ids handed out so far are 1, 2, 3, ... in 32-bit arithmetic, and the
      counter holds the last of them (0 before the first request). */
  ghost predicate IssuedInOrder(issued: seq<int>, counter: int) {
    && counter == WrapInt32(|issued|)
    && forall k :: 0 <= k < |issued| ==> issued[k] == WrapInt32(k + 1)
  }

  /** Handing out the next id keeps the ids in order. */
  lemma NextIdExtends(issued: seq<int>, counter: int)
    requires IssuedInOrder(issued, counter)
    ensures IssuedInOrder(issued + [NextId(counter)], NextId(counter))
  {
    WrapSucc(|issued|);
  }

  /** Wrapping and then adding one, wrapped again, is wrapping the successor. */
  lemma WrapSucc(x: int)
    ensures WrapInt32(WrapInt32(x) + 1) == WrapInt32(x + 1)
  {
    var y := x + 0x8000_0000;
    var q, c := y / 0x1_0000_0000, y % 0x1_0000_0000;
    assert y == q * 0x1_0000_0000 + c;
    assert WrapInt32(x) + 1 + 0x8000_0000 == c + 1;
    if c + 1 < 0x1_0000_0000 {
      ModOfDecomposition(c + 1, 0, c + 1);
      ModOfDecomposition(y + 1, q, c + 1);
    } else {
      ModOfDecomposition(c + 1, 1, 0);
      ModOfDecomposition(y + 1, q + 1, 0);
    }
  }

  /** The remainder modulo 2^32 is the one of any decomposition. */
  lemma ModOfDecomposition(a: int, q: int, r: int)
    requires a == q * 0x1_0000_0000 + r && 0 <= r < 0x1_0000_0000
    ensures a % 0x1_0000_0000 == r
  {
  }

  /** Until the counter wraps, every id is positive and strictly greater than
      every id handed out before it. */
  lemma IssuedIdsIncrease(issued: seq<int>, counter: int)
    requires IssuedInOrder(issued, counter)
    requires |issued| <= Int32Max
    ensures forall j, k :: 0 <= j < k < |issued| ==> 0 < issued[j] < issued[k]
    ensures forall k :: 0 <= k < |issued| ==> issued[k] == k + 1
  {
  }

  /** Until the counter wraps, the next id exceeds every id handed out so far. */
  lemma NextIdIsFresh(issued: seq<int>, counter: int)
    requires IssuedInOrder(issued, counter)
    requires |issued| < Int32Max
    ensures NextId(counter) == |issued| + 1
    ensures forall k :: 0 <= k < |issued| ==> issued[k] < NextId(counter)
  {
  }
}
