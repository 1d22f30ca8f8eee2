/** The transport to a remote MCP server over HTTP: a GET on the configured URL
    opens a Server-Sent-Events stream whose `endpoint` event names where to POST
    requests; each POST's response body is itself an event stream carrying the
    reply on a `data:` line. */
module SseTransports {
  import opened Wrappers
  import opened Text
  import opened Models
  import opened JsonRpc
  import opened Platform

  const SseMediaType := "text/event-stream"
  const EndpointEventPrefix := "event: endpoint"
  const DataLinePrefix := "data: "

  function EndpointMissingError(): Exception {
    Exception(InvalidOperation, "Failed to get SSE endpoint from server")
  }

  // ---------------------------------------------------------------------------
  // Reading the endpoint event
  // ---------------------------------------------------------------------------

  /** The endpoint the stream announces: after the first line that starts with
      `event: endpoint`, the next line must be a data line, whose remainder is
      the endpoint; if it is not, that line is passed over too and the search
      goes on. A stream that ends first announces nothing. */
  function EndpointScan(lines: seq<string>): (r: Option<string>)
    ensures r.Some? ==> exists k :: 0 <= k < |lines| - 1 && StartsWith(lines[k], EndpointEventPrefix)
                                    && lines[k + 1] == DataLinePrefix + r.value
    ensures (forall k :: 0 <= k < |lines| ==> !StartsWith(lines[k], EndpointEventPrefix)) ==> r.None?
    decreases |lines|
  {
    if lines == [] then None
    else if !StartsWith(lines[0], EndpointEventPrefix) then
      var r := EndpointScan(lines[1..]);
      assert forall k :: 0 <= k < |lines| - 1 ==> lines[1..][k] == lines[k + 1];
      r
    else if |lines| == 1 then None
    else if StartsWith(lines[1], DataLinePrefix) then
      assert lines[1] == DataLinePrefix + lines[1][|DataLinePrefix|..];
      Some(lines[1][|DataLinePrefix|..])
    else
      var r := EndpointScan(lines[2..]);
      assert forall k :: 0 <= k < |lines| - 2 ==> lines[2..][k] == lines[k + 2];
      r
  }

  /** The endpoint reader's loop. */
  method ReadSseEndpoint(lines: seq<string>) returns (r: Option<string>)
    ensures r == EndpointScan(lines)
  {
    var i := 0;
    while i < |lines|
      invariant 0 <= i <= |lines|
      invariant EndpointScan(lines[i..]) == EndpointScan(lines)
    {
      var line := lines[i];
      assert lines[i..][1..] == lines[i + 1..];
      i := i + 1;
      if !StartsWith(line, EndpointEventPrefix) {
        continue;
      }
      if i < |lines| {
        var dataLine := lines[i];
        assert lines[i - 1..][2..] == lines[i + 1..];
        i := i + 1;
        if StartsWith(dataLine, DataLinePrefix) {
          return Some(dataLine[|DataLinePrefix|..]);
        }
      }
    }
    assert lines[i..] == [];
    r := None;
  }

  /** An `endpoint` event followed by its data line announces that endpoint,
      whatever comes before it (as long as no earlier endpoint event) and after. */
  lemma {:induction false} EndpointAfterEvent(before: seq<string>, endpoint: string, after: seq<string>)
    requires forall k :: 0 <= k < |before| ==> !StartsWith(before[k], EndpointEventPrefix)
    ensures EndpointScan(before + [EndpointEventPrefix, DataLinePrefix + endpoint] + after) == Some(endpoint)
    decreases |before|
  {
    var lines := before + [EndpointEventPrefix, DataLinePrefix + endpoint] + after;
    if before == [] {
      assert lines[0] == EndpointEventPrefix && lines[1] == DataLinePrefix + endpoint;
      assert StartsWith(lines[0], EndpointEventPrefix);
      assert StartsWith(lines[1], DataLinePrefix);
      assert lines[1][|DataLinePrefix|..] == endpoint;
    } else {
      assert lines[1..] == before[1..] + [EndpointEventPrefix, DataLinePrefix + endpoint] + after;
      EndpointAfterEvent(before[1..], endpoint, after);
    }
  }

  /** The first `endpoint` event whose next line is a data line decides the
      endpoint: any event line, any data line, whatever follows. */
  lemma {:induction false} FirstEndpointPairDecides(before: seq<string>, event: string, data: string, after: seq<string>)
    requires forall k :: 0 <= k < |before| ==> !StartsWith(before[k], EndpointEventPrefix)
    requires StartsWith(event, EndpointEventPrefix) && StartsWith(data, DataLinePrefix)
    ensures EndpointScan(before + [event, data] + after) == Some(data[|DataLinePrefix|..])
    decreases |before|
  {
    var lines := before + [event, data] + after;
    if before == [] {
      assert lines[0] == event && lines[1] == data;
    } else {
      assert lines[1..] == before[1..] + [event, data] + after;
      FirstEndpointPairDecides(before[1..], event, data, after);
    }
  }

  /** An `endpoint` event whose next line is not a data line consumes that
      line as well, and the search resumes after the two. */
  lemma {:induction false} EndpointSkipsNonDataPair(before: seq<string>, event: string, nonData: string, rest: seq<string>)
    requires forall k :: 0 <= k < |before| ==> !StartsWith(before[k], EndpointEventPrefix)
    requires StartsWith(event, EndpointEventPrefix) && !StartsWith(nonData, DataLinePrefix)
    ensures EndpointScan(before + [event, nonData] + rest) == EndpointScan(rest)
    decreases |before|
  {
    var lines := before + [event, nonData] + rest;
    if before == [] {
      assert lines[0] == event && lines[1] == nonData;
      assert lines[2..] == rest;
    } else {
      assert lines[1..] == before[1..] + [event, nonData] + rest;
      EndpointSkipsNonDataPair(before[1..], event, nonData, rest);
    }
  }

  /** An `endpoint` event on the stream's last line announces nothing. */
  lemma {:induction false} EndpointEventAtEnd(before: seq<string>, event: string)
    requires forall k :: 0 <= k < |before| ==> !StartsWith(before[k], EndpointEventPrefix)
    requires StartsWith(event, EndpointEventPrefix)
    ensures EndpointScan(before + [event]) == None
    decreases |before|
  {
    var lines := before + [event];
    if before != [] {
      assert lines[1..] == before[1..] + [event];
      EndpointEventAtEnd(before[1..], event);
    }
  }

  // ---------------------------------------------------------------------------
  // Reading the reply from a POST's event stream
  // ---------------------------------------------------------------------------

  /** A data line carrying the reply to `id`. */
  predicate IsDataFor(line: string, id: int) {
    StartsWith(line, DataLinePrefix) && IsResponseForId(line[|DataLinePrefix|..], id)
  }

  /** The reply reader's specification: the first data line for `id` is parsed;
      a stream without one yields no result. */
  function SseResponse<T>(lines: seq<string>, id: int, decode: string -> Decoded<T>): (r: Result<Option<T>, Exception>)
    ensures (forall k :: 0 <= k < |lines| ==> !IsDataFor(lines[k], id)) ==> r == Ok(None)
    ensures r != Ok(None) ==> exists k :: 0 <= k < |lines| && IsDataFor(lines[k], id)
                                        && r == ParseReply(lines[k][|DataLinePrefix|..], decode)
    decreases |lines|
  {
    if lines == [] then Ok(None)
    else if IsDataFor(lines[0], id) then ParseReply(lines[0][|DataLinePrefix|..], decode)
    else
      var r := SseResponse(lines[1..], id, decode);
      assert forall k :: 0 <= k < |lines| - 1 ==> lines[1..][k] == lines[k + 1];
      r
  }

  /** The reply reader's loop. */
  method ReadSseResponse<T>(lines: seq<string>, expectedId: int, decode: string -> Decoded<T>) returns (r: Result<Option<T>, Exception>)
    ensures r == SseResponse(lines, expectedId, decode)
  {
    var i := 0;
    while i < |lines|
      invariant 0 <= i <= |lines|
      invariant SseResponse(lines[i..], expectedId, decode) == SseResponse(lines, expectedId, decode)
    {
      var line := lines[i];
      assert lines[i..][1..] == lines[i + 1..];
      i := i + 1;
      if !StartsWith(line, DataLinePrefix) {
        continue;
      }
      var json := line[|DataLinePrefix|..];
      if !IsResponseForId(json, expectedId) {
        continue;
      }
      return ParseReply(json, decode);
    }
    assert lines[i..] == [];
    r := Ok(None);
  }

  /** The first data line that carries the reply to `id` is the one parsed,
      whatever follows it. */
  lemma {:induction false} FirstDataLineIsParsed<T>(before: seq<string>, line: string, after: seq<string>, id: int, decode: string -> Decoded<T>)
    requires forall k :: 0 <= k < |before| ==> !IsDataFor(before[k], id)
    requires IsDataFor(line, id)
    ensures SseResponse(before + [line] + after, id, decode) == ParseReply(line[|DataLinePrefix|..], decode)
    decreases |before|
  {
    var lines := before + [line] + after;
    if before == [] {
      assert lines[0] == line;
    } else {
      assert lines[1..] == before[1..] + [line] + after;
      FirstDataLineIsParsed(before[1..], line, after, id, decode);
    }
  }

  /** Correlation over an event stream: after lines that carry no reply for
      `id`, a data line with the compact reply to `id` is the one parsed. */
  lemma {:induction false} SseReplyAfterNoise<T>(before: seq<string>, tail: string, after: seq<string>, id: int, decode: string -> Decoded<T>)
    requires forall k :: 0 <= k < |before| ==> !IsDataFor(before[k], id)
    ensures SseResponse(before + [DataLinePrefix + CompactReplyHead(id) + tail] + after, id, decode)
            == ParseReply(CompactReplyHead(id) + tail, decode)
  {
    var line := DataLinePrefix + CompactReplyHead(id) + tail;
    assert StartsWith(line, DataLinePrefix);
    assert line[|DataLinePrefix|..] == CompactReplyHead(id) + tail;
    CompactReplyIsRecognised(id, tail);
    FirstDataLineIsParsed(before, line, after, id, decode);
  }

  // ---------------------------------------------------------------------------
  // The HTTP client's configuration
  // ---------------------------------------------------------------------------

  /** The bearer token sent with every request: the value of the configured
      environment variable, when both the variable's name and its value are
      non-empty. */
  function BearerToken(apiKeyEnvVar: Option<string>, variables: map<string, string>): (r: Option<string>)
    ensures r.Some? <==> apiKeyEnvVar.Some? && apiKeyEnvVar.value != ""
                         && apiKeyEnvVar.value in variables && variables[apiKeyEnvVar.value] != ""
    ensures r.Some? ==> r.value == variables[apiKeyEnvVar.value]
  {
    if apiKeyEnvVar.None? || apiKeyEnvVar.value == "" then None
    else if apiKeyEnvVar.value !in variables || variables[apiKeyEnvVar.value] == "" then None
    else Some(variables[apiKeyEnvVar.value])
  }

  // ---------------------------------------------------------------------------
  // What an HTTP exchange yields
  // ---------------------------------------------------------------------------

  /** `EnsureSuccessStatusCode`, then read the endpoint from the stream. */
  function ConnectOutcome(reply: HttpReply): (r: Result<string, Exception>)
    ensures r.Ok? <==> reply.HttpReply? && IsSuccessStatus(reply.status) && EndpointScan(reply.body).Some?
    ensures reply.HttpReply? && !IsSuccessStatus(reply.status) ==> r == Err(StatusError(reply.status))
    ensures reply.HttpReply? && IsSuccessStatus(reply.status) && EndpointScan(reply.body).None? ==>
              r == Err(EndpointMissingError())
  {
    match reply
    case HttpFailure(e) => Err(e)
    case HttpReply(status, body) =>
      if !IsSuccessStatus(status) then Err(StatusError(status))
      else match EndpointScan(body)
        case None => Err(EndpointMissingError())
        case Some(endpoint) => Ok(endpoint)
  }

  /** `EnsureSuccessStatusCode`, then read the reply to `id` from the stream. */
  function PostOutcome<T>(reply: HttpReply, id: int, decode: string -> Decoded<T>): (r: Result<Option<T>, Exception>)
    ensures reply.HttpFailure? ==> r == Err(reply.error)
    ensures reply.HttpReply? && !IsSuccessStatus(reply.status) ==> r == Err(StatusError(reply.status))
    ensures reply.HttpReply? && IsSuccessStatus(reply.status) ==> r == SseResponse(reply.body, id, decode)
  {
    match reply
    case HttpFailure(e) => Err(e)
    case HttpReply(status, body) =>
      if !IsSuccessStatus(status) then Err(StatusError(status)) else SseResponse(body, id, decode)
  }

  /** A notification succeeds exactly when the POST gets a success status. */
  function AckOutcome(reply: HttpReply): (r: Result<(), Exception>)
    ensures r.Ok? <==> reply.HttpReply? && IsSuccessStatus(reply.status)
    ensures reply.HttpFailure? ==> r == Err(reply.error)
    ensures reply.HttpReply? && !IsSuccessStatus(reply.status) ==> r == Err(StatusError(reply.status))
  {
    match reply
    case HttpFailure(e) => Err(e)
    case HttpReply(status, _) => if IsSuccessStatus(status) then Ok(()) else Err(StatusError(status))
  }

  // ---------------------------------------------------------------------------
  // The transport
  // ---------------------------------------------------------------------------

  class SseTransport {
    const config: McpServerConfig
    const host: HostEnvironment
    /** The client's default request headers: the configured ones. */
    const headers: map<string, string>
    /** The client's bearer token, if one is configured. */
    const authorization: Option<string>
    var requestId: int
    var sessionEndpoint: Option<string>
    var isInitialized: bool
    /** Every HTTP request sent, in order. */
    var sent: seq<HttpRequest>
    /** The request ids handed out so far. */
    ghost var issued: seq<int>

    ghost predicate Valid()
      reads this
    {
      && IssuedInOrder(issued, requestId)
      && (isInitialized ==> sessionEndpoint.Some?)
    }

    /** Where requests are posted: the announced endpoint, or before there is
        one, the configured URL. */
    function PostUrl(): (url: Option<string>)
      reads this
      ensures sessionEndpoint.Some? ==> url == sessionEndpoint
      ensures sessionEndpoint.None? ==> url == config.url
    {
      if sessionEndpoint.Some? then sessionEndpoint else config.url
    }

    /** The GET that opens the event stream. */
    function ConnectRequest(): HttpRequest
      reads this
    {
      HttpGet(config.url, SseMediaType, headers, authorization)
    }

    /** The POST that carries the next request for `methodName`. */
    function NextPost(methodName: string, params: Params): HttpRequest
      reads this
    {
      HttpPost(PostUrl(), NewRequest(NextId(requestId), methodName, params), headers, authorization)
    }

    /** The value the next request for `methodName` yields. */
    ghost function PendingReply<T>(methodName: string, params: Params, decode: string -> Decoded<T>): Result<Option<T>, Exception>
      reads this
    {
      PostOutcome(host.http(NextPost(methodName, params)), NextId(requestId), decode)
    }

    /** One request went out: the counter moved to its id and the POST carrying
        it was sent. Nothing else changed. */
    twostate predicate RequestPosted(methodName: string, params: Params)
      reads this
    {
      && requestId == NextId(old(requestId))
      && issued == old(issued) + [requestId]
      && sent == old(sent) + [old(NextPost(methodName, params))]
      && sessionEndpoint == old(sessionEndpoint) && isInitialized == old(isInitialized)
    }

    /** The client is configured once, with the configured headers and, when
        the named environment variable holds a key, that key as bearer token. */
    constructor(config: McpServerConfig, host: HostEnvironment)
      ensures Valid()
      ensures this.config == config && this.host == host
      ensures headers == config.headers
      ensures authorization == BearerToken(config.apiKeyEnvVar, host.variables)
      ensures requestId == 0 && sessionEndpoint.None? && !isInitialized && sent == [] && issued == []
    {
      this.config := config;
      this.host := host;
      headers := config.headers;
      authorization := BearerToken(config.apiKeyEnvVar, host.variables);
      requestId := 0;
      sessionEndpoint := None;
      isInitialized := false;
      sent := [];
      issued := [];
    }

    /** Connect, learn the endpoint and perform the handshake, unless already
        initialized. A failed connection records only the GET; a failed
        handshake leaves the endpoint in place but the transport uninitialized. */
    method InitializeAsync() returns (r: Result<(), Exception>)
      requires Valid()
      modifies this
      ensures Valid()
      ensures r.Ok? <==> isInitialized
      ensures old(isInitialized) ==> r == Ok(()) && unchanged(this)
      ensures !old(isInitialized) && ConnectOutcome(host.http(ConnectRequest())).Err? ==>
                && r == Err(ConnectOutcome(host.http(ConnectRequest())).error)
                && sent == old(sent) + [ConnectRequest()]
                && requestId == old(requestId) && issued == old(issued)
                && sessionEndpoint == old(sessionEndpoint) && !isInitialized
      ensures !old(isInitialized) && ConnectOutcome(host.http(ConnectRequest())).Ok? ==>
                var endpoint := ConnectOutcome(host.http(ConnectRequest())).value;
                var id := NextId(old(requestId));
                var post := HttpPost(Some(endpoint), NewRequest(id, MethodInitialize, HandshakeParams()), headers, authorization);
                var handshake := PostOutcome(host.http(post), id, host.json.untyped);
                var note := HttpPost(Some(endpoint), NullParamsNotification(MethodInitialized), headers, authorization);
                && sessionEndpoint == Some(endpoint)
                && requestId == id && issued == old(issued) + [id]
                && (handshake.Err? ==> r == Err(handshake.error) && sent == old(sent) + [ConnectRequest(), post] && !isInitialized)
                && (handshake.Ok? ==> r == AckOutcome(host.http(note)) && sent == old(sent) + [ConnectRequest(), post, note]
                                      && isInitialized == r.Ok?)
    {
      if isInitialized {
        return Ok(());
      }
      var get := ConnectRequest();
      var reply := Send(get);
      if reply.HttpFailure? {
        return Err(reply.error);
      }
      if !IsSuccessStatus(reply.status) {
        return Err(StatusError(reply.status));
      }
      var endpoint := ReadSseEndpoint(reply.body);
      if endpoint.None? {
        return Err(EndpointMissingError());
      }
      sessionEndpoint := endpoint;
      assert endpoint.value == ConnectOutcome(host.http(get)).value;
      ghost var id := NextId(requestId);
      ghost var post := HttpPost(endpoint, NewRequest(id, MethodInitialize, HandshakeParams()), headers, authorization);
      assert NextPost(MethodInitialize, HandshakeParams()) == post;
      var handshake := SendRequest(MethodInitialize, HandshakeParams(), host.json.untyped);
      assert requestId == id && issued == old(issued) + [id] && sent == old(sent) + [get, post];
      assert handshake == PostOutcome(host.http(post), id, host.json.untyped);
      if handshake.Err? {
        return Err(handshake.error);
      }
      var ack := SendNotification(MethodInitialized);
      if ack.Err? {
        return Err(ack.error);
      }
      isInitialized := true;
      r := Ok(());
    }

    /** `tools/list`: the listed tools, none when no reply arrives. There is no
        initialization guard: before the handshake the request goes to the
        configured URL. */
    method ListToolsAsync() returns (r: Result<seq<McpTool>, Exception>)
      requires Valid()
      modifies this
      ensures Valid()
      ensures isInitialized == old(isInitialized)
      ensures RequestPosted(MethodToolsList, NullParams)
      ensures r == ToolsFrom(old(PendingReply(MethodToolsList, NullParams, host.json.tools)))
    {
      var reply := SendRequest(MethodToolsList, NullParams, host.json.tools);
      r := ToolsFrom(reply);
    }

    /** `tools/call` with the name and the arguments (an empty dictionary when
        none are given); no reply becomes the "No response" result. */
    method CallToolAsync(toolName: string, parameters: Option<Parameters>) returns (r: Result<McpCallToolResult, Exception>)
      requires Valid()
      modifies this
      ensures Valid()
      ensures isInitialized == old(isInitialized)
      ensures RequestPosted(MethodToolsCall, CallParams(toolName, parameters))
      ensures r == CallResultFrom(old(PendingReply(MethodToolsCall, CallParams(toolName, parameters), host.json.callResult)))
    {
      var reply := SendRequest(MethodToolsCall, CallParams(toolName, parameters), host.json.callResult);
      r := CallResultFrom(reply);
    }

    /** The HTTP client belongs to its factory: disposing changes nothing, as
        often as it is called. */
    method DisposeAsync()
      requires Valid()
      ensures Valid()
    {
    }

    /** Send one HTTP request. */
    method Send(request: HttpRequest) returns (reply: HttpReply)
      modifies this`sent
      ensures reply == host.http(request)
      ensures sent == old(sent) + [request]
    {
      reply := host.http(request);
      sent := sent + [request];
    }

    /** Take the next id, POST the request, and read its reply from the
        response's event stream. */
    method SendRequest<T>(methodName: string, params: Params, decode: string -> Decoded<T>) returns (r: Result<Option<T>, Exception>)
      requires Valid()
      modifies this
      ensures Valid()
      ensures RequestPosted(methodName, params)
      ensures r == old(PendingReply(methodName, params, decode))
    {
      var post := NextPost(methodName, params);
      NextIdExtends(issued, requestId);
      var id := NextId(requestId);
      requestId := id;
      issued := issued + [id];
      var reply := Send(post);
      if reply.HttpFailure? {
        return Err(reply.error);
      }
      if !IsSuccessStatus(reply.status) {
        return Err(StatusError(reply.status));
      }
      r := ReadSseResponse(reply.body, id, decode);
    }

    /** POST a notification; only the status is checked. */
    method SendNotification(methodName: string) returns (r: Result<(), Exception>)
      requires Valid()
      modifies this`sent
      ensures var note := HttpPost(PostUrl(), NullParamsNotification(methodName), headers, authorization);
              r == AckOutcome(host.http(note)) && sent == old(sent) + [note]
    {
      var note := HttpPost(PostUrl(), NullParamsNotification(methodName), headers, authorization);
      var reply := Send(note);
      r := AckOutcome(reply);
    }
  }

  // ---------------------------------------------------------------------------
  // The stream shapes the transport must handle
  // ---------------------------------------------------------------------------

  /** An empty stream, a stream with a different event, and an endpoint event
      with no data line all announce nothing; a well-formed endpoint event
      announces its path. */
  lemma EndpointScanExamples()
    ensures EndpointScan([]) == None
    ensures EndpointScan(["event: message", "data: hello", ""]) == None
    ensures EndpointScan([EndpointEventPrefix, ""]) == None
    ensures EndpointScan([EndpointEventPrefix, "data: /messages", ""]) == Some("/messages")
  {
    assert !StartsWith("event: message", EndpointEventPrefix);
    assert !StartsWith("data: hello", EndpointEventPrefix);
    assert !StartsWith("", EndpointEventPrefix);
    assert StartsWith(EndpointEventPrefix, EndpointEventPrefix);
    assert !StartsWith("", DataLinePrefix);
    EndpointAfterEvent([], "/messages", [""]);
    assert DataLinePrefix + "/messages" == "data: /messages";
    assert [] + [EndpointEventPrefix, DataLinePrefix + "/messages"] + [""] == [EndpointEventPrefix, "data: /messages", ""];
  }
}
