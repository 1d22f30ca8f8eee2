/** The HTTP controller over the session registry: not-found guards on the
    per-server routes, and a log entry for every invocation, with its
    parameters redacted and capped and its response summarised. */
module ServersController {
  import opened Wrappers
  import opened Models
  import opened Text
  import opened JsonRpc
  import ClientService
  import InvocationLogging

  /** Key fragments whose values never reach the log, matched anywhere in the
      key and regardless of case. */
  const SensitiveParams: seq<string> := ["password", "token", "secret", "key", "api_key", "apikey", "auth", "credential"]

  const Redacted := "[REDACTED]"

  /** Serialised parameters are capped at this many characters... */
  const ParamsLimit: nat := 500
  /** ...and response summaries at this many. */
  const SummaryLimit: nat := 200

  /** `JsonSerializer.Serialize` for the two shapes the controller writes. */
  datatype JsonWriter = JsonWriter(
    parameters: Parameters -> string,
    content: seq<McpContentItem> -> string)

  /** What an action answers: 200 with a body, 404 with an error message, or
      the exception that escapes the action (a 500). */
  datatype ActionResult<T> = OkObject(value: T) | NotFoundObject(error: string) | ServerError(exception: Exception)

  function NotFoundMessage(name: string): string {
    "Server '" + name + "' not found"
  }

  function ShutdownMessage(name: string): string {
    "Server '" + name + "' shutdown"
  }

  // ---------------------------------------------------------------------------
  // Redaction
  // ---------------------------------------------------------------------------

  predicate IsSensitive(key: string) {
    exists i :: 0 <= i < |SensitiveParams| && ContainsIgnoreCase(key, SensitiveParams[i])
  }

  function RedactedValue(key: string, value: Value): Value {
    if IsSensitive(key) then Str(Redacted) else value
  }

  /** The sanitised dictionary: every key kept, sensitive values replaced. */
  function RedactAll(parameters: Parameters): Parameters {
    map key | key in parameters :: RedactedValue(key, parameters[key])
  }

  /** The `foreach` that fills the sanitised dictionary, one key at a time. */
  method Redact(parameters: Parameters) returns (sanitized: Parameters)
    ensures sanitized == RedactAll(parameters)
  {
    sanitized := map[];
    var pending := parameters.Keys;
    while pending != {}
      invariant pending <= parameters.Keys
      invariant sanitized.Keys == parameters.Keys - pending
      invariant forall key :: key in sanitized ==> sanitized[key] == RedactedValue(key, parameters[key])
      decreases pending
    {
      var key :| key in pending;
      if IsSensitive(key) {
        sanitized := sanitized[key := Str(Redacted)];
      } else {
        sanitized := sanitized[key := parameters[key]];
      }
      pending := pending - {key};
    }
  }

  /** Redaction keeps every key; a value is replaced by the marker exactly
      when its key is sensitive (or it already was the marker), and any other
      value is left as it was. */
  lemma RedactionMasksExactlySensitiveKeys(parameters: Parameters)
    ensures RedactAll(parameters).Keys == parameters.Keys
    ensures forall key :: key in parameters ==>
              && (RedactAll(parameters)[key] == Str(Redacted) <==> IsSensitive(key) || parameters[key] == Str(Redacted))
              && (!IsSensitive(key) ==> RedactAll(parameters)[key] == parameters[key])
  {
  }

  /** Sanitising a sanitised dictionary changes nothing. */
  lemma RedactionIsIdempotent(parameters: Parameters)
    ensures RedactAll(RedactAll(parameters)) == RedactAll(parameters)
  {
    var once := RedactAll(parameters);
    assert forall key :: key in once ==> RedactedValue(key, once[key]) == once[key];
  }

  /** A substring has at most the length of the string containing it. */
  lemma ContainedIsNoLonger(s: string, sub: string)
    requires Contains(s, sub)
    ensures |sub| <= |s|
  {
    var i := ContainsWitness(s, sub);
  }

  /** No sensitive word is shorter than three characters, so a key of one or
      two characters is never redacted. */
  lemma ShortKeysAreNeverRedacted(key: string)
    requires |key| < 3
    ensures !IsSensitive(key)
  {
    forall i | 0 <= i < |SensitiveParams| ensures !ContainsIgnoreCase(key, SensitiveParams[i]) {
      assert |SensitiveParams[i]| >= 3;
      if ContainsIgnoreCase(key, SensitiveParams[i]) {
        ContainedIsNoLonger(UpperAll(key), UpperAll(SensitiveParams[i]));
      }
    }
  }

  lemma UpperAllIdempotent(s: string)
    ensures UpperAll(UpperAll(s)) == UpperAll(s)
  {
  }

  /** Matching ignores case: a key and its upper-cased form are redacted
      alike. */
  lemma SensitivityIgnoresCase(key: string)
    ensures IsSensitive(UpperAll(key)) <==> IsSensitive(key)
  {
    UpperAllIdempotent(key);
  }

  /** The words of the list that are not themselves infixes of another word
      of it. */
  const CoreSensitiveWords: seq<string> := ["password", "token", "secret", "key", "auth", "credential"]

  /** "api_key" and "apikey" both contain "key", so the list redacts exactly
      the keys that contain one of its six other words. */
  lemma ApiKeyWordsAreRedundant(key: string)
    ensures IsSensitive(key) <==> exists i :: 0 <= i < |CoreSensitiveWords| && ContainsIgnoreCase(key, CoreSensitiveWords[i])
  {
    if IsSensitive(key) {
      SensitiveKeyHasCoreWord(key);
    }
    if exists i :: 0 <= i < |CoreSensitiveWords| && ContainsIgnoreCase(key, CoreSensitiveWords[i]) {
      var i :| 0 <= i < |CoreSensitiveWords| && ContainsIgnoreCase(key, CoreSensitiveWords[i]);
      CoreWordIsSensitive(key, i);
    }
  }

  /** Every word of the short list is on the full list. */
  lemma CoreWordIsSensitive(key: string, i: nat)
    requires i < |CoreSensitiveWords| && ContainsIgnoreCase(key, CoreSensitiveWords[i])
    ensures IsSensitive(key)
  {
    var j := if i < 4 then i else i + 2;
    assert SensitiveParams[j] == CoreSensitiveWords[i];
  }

  /** A sensitive key contains a word of the short list: "api_key" and
      "apikey" carry "key" inside them. */
  lemma SensitiveKeyHasCoreWord(key: string)
    requires IsSensitive(key)
    ensures exists i :: 0 <= i < |CoreSensitiveWords| && ContainsIgnoreCase(key, CoreSensitiveWords[i])
  {
    var i :| 0 <= i < |SensitiveParams| && ContainsIgnoreCase(key, SensitiveParams[i]);
    if i == 4 || i == 5 {
      ApiKeyWordHasKey(key, i);
    } else {
      PlainWordIsCore(key, i);
    }
  }

  lemma ApiKeyWordHasKey(key: string, i: nat)
    requires (i == 4 || i == 5) && ContainsIgnoreCase(key, SensitiveParams[i])
    ensures ContainsIgnoreCase(key, CoreSensitiveWords[3])
  {
    assert CoreSensitiveWords[3] == "key";
    if i == 4 {
      assert SensitiveParams[4] == "api_key";
      KeyInside(key, "api_key", 4);
    } else {
      assert SensitiveParams[5] == "apikey";
      KeyInside(key, "apikey", 3);
    }
  }

  lemma PlainWordIsCore(key: string, i: nat)
    requires i < |SensitiveParams| && i != 4 && i != 5 && ContainsIgnoreCase(key, SensitiveParams[i])
    ensures ContainsIgnoreCase(key, CoreSensitiveWords[if i < 4 then i else i - 2])
  {
    assert CoreSensitiveWords[if i < 4 then i else i - 2] == SensitiveParams[i];
  }

  /** A key containing a word with "key" at `offset` contains "key". */
  lemma KeyInside(key: string, word: string, offset: nat)
    requires offset + 3 <= |word| && word[offset..offset + 3] == "key"
    requires ContainsIgnoreCase(key, word)
    ensures ContainsIgnoreCase(key, "key")
  {
    var upperKey, upperWord := UpperAll(key), UpperAll(word);
    var i := ContainsWitness(upperKey, upperWord);
    assert UpperAll("key") == "KEY";
    assert upperWord[offset..offset + 3] == "KEY";
    assert upperKey[i + offset..i + offset + 3] == upperWord[offset..offset + 3];
    ContainsAt(upperKey, "KEY", i + offset);
  }

  // ---------------------------------------------------------------------------
  // What goes into the log
  // ---------------------------------------------------------------------------

  /** The logged parameter text: nothing for absent or empty parameters, else
      the sanitised dictionary serialised, cut to 500 characters plus "..."
      when longer. */
  function SanitizedParams(parameters: Option<Parameters>, json: JsonWriter): (r: Option<string>)
    ensures r.None? <==> parameters.None? || |parameters.value| == 0
    ensures r.Some? ==> |r.value| <= ParamsLimit + 3
    ensures r.Some? ==> var text := json.parameters(RedactAll(parameters.value));
                        && (|text| <= ParamsLimit ==> r.value == text)
                        && (|text| > ParamsLimit ==> r.value == text[..ParamsLimit] + "...")
  {
    if parameters.None? || |parameters.value| == 0 then None
    else
      var text := json.parameters(RedactAll(parameters.value));
      assert |text| > ParamsLimit ==> text[..ParamsLimit] + "..." == Truncate(text, ParamsLimit);
      Some(Truncate(text, ParamsLimit))
  }

  method SanitizeParams(parameters: Option<Parameters>, json: JsonWriter) returns (r: Option<string>)
    ensures r == SanitizedParams(parameters, json)
  {
    if parameters == None || |parameters.value| == 0 {
      return None;
    }
    var sanitized := Redact(parameters.value);
    var text := json.parameters(sanitized);
    r := Some(if |text| > ParamsLimit then text[..ParamsLimit] + "..." else text);
  }

  /** The logged response text: nothing without a response or without a
      result, else the result serialised, cut to 200 characters plus "...". */
  function SummarizeResponse(response: Option<InvokeResponse>, json: JsonWriter): (r: Option<string>)
    ensures r.None? <==> response.None? || response.value.result.None?
    ensures r.Some? ==> |r.value| <= SummaryLimit + 3
    ensures r.Some? ==> var text := json.content(response.value.result.value);
                        && (|text| <= SummaryLimit ==> r.value == text)
                        && (|text| > SummaryLimit ==> r.value == text[..SummaryLimit] + "...")
  {
    if response.None? || response.value.result.None? then None
    else
      var text := json.content(response.value.result.value);
      assert |text| > SummaryLimit ==> text[..SummaryLimit] + "..." == Truncate(text, SummaryLimit);
      Some(Truncate(text, SummaryLimit))
  }

  /** The entry for one invocation: it succeeded only when a response says
      so; its error is the exception's message, else the response's error. */
  function LogEntry(serverName: string, request: InvokeRequest, response: Option<InvokeResponse>,
                    exception: Option<Exception>, durationMs: int, now: nat, json: JsonWriter): (log: InvocationLogging.InvocationLog)
    ensures log.serverName == serverName && log.toolName == request.tool
    ensures log.timestamp == now && log.durationMs == durationMs
    ensures log.success <==> response.Some? && response.value.success
    ensures exception.Some? ==> log.error == Some(exception.value.message)
    ensures exception.None? && response.Some? ==> log.error == response.value.error
    ensures exception.None? && response.None? ==> log.error.None?
    ensures log.parameters == SanitizedParams(request.params, json)
    ensures log.responseSummary == SummarizeResponse(response, json)
  {
    InvocationLogging.InvocationLog(
      0, now, serverName, request.tool, SanitizedParams(request.params, json),
      response.Some? && response.value.success, durationMs, SummarizeResponse(response, json),
      if exception.Some? then Some(exception.value.message) else if response.Some? then response.value.error else None)
  }

  /** What the log later returns for an invocation is the entry built for
      it: the sanitised parameters, the success flag and the error come back
      unchanged. */
  lemma LoggedInvocationReadsBack(serverName: string, request: InvokeRequest, response: Option<InvokeResponse>,
                                  exception: Option<Exception>, durationMs: int, now: nat, json: JsonWriter, id: nat)
    ensures var back := InvocationLogging.FromRow(InvocationLogging.ToRow(LogEntry(serverName, request, response, exception, durationMs, now, json), id));
            && back.id == id && back.serverName == serverName && back.toolName == request.tool
            && back.parameters == SanitizedParams(request.params, json)
            && (back.success <==> response.Some? && response.value.success)
            && back.error == (if exception.Some? then Some(exception.value.message) else if response.Some? then response.value.error else None)
  {
    InvocationLogging.StoredLogReadsBack(LogEntry(serverName, request, response, exception, durationMs, now, json), id);
  }

  // ---------------------------------------------------------------------------
  // The controller
  // ---------------------------------------------------------------------------

  class ServersController {
    const client: ClientService.McpClientService
    const logger: InvocationLogging.SqliteInvocationLogger
    const json: JsonWriter

    ghost predicate Valid()
      reads this, client, client.Repr, logger
    {
      client.Valid() && logger.Valid() && logger !in client.Repr
    }

    constructor(client: ClientService.McpClientService, logger: InvocationLogging.SqliteInvocationLogger, json: JsonWriter)
      requires client.Valid() && logger.Valid() && logger !in client.Repr
      ensures Valid() && this.client == client && this.logger == logger && this.json == json
    {
      this.client := client;
      this.logger := logger;
      this.json := json;
    }

    /** The server's tools, or not-found for an unconfigured name, in which
        case the registry is not touched. For a configured name the service's
        answer is relayed: its tools as they are, or its failure. */
    method ListTools(name: string) returns (r: ActionResult<seq<McpTool>>, ghost tools: Result<seq<McpTool>, Exception>)
      requires Valid()
      modifies client, client.Repr
      ensures Valid() && fresh(client.Repr - old(client.Repr))
      ensures !client.ServerExists(name) ==> r == NotFoundObject(NotFoundMessage(name)) && client.transports == old(client.transports)
      ensures client.ServerExists(name) ==> r == (if tools.Ok? then OkObject(tools.value) else ServerError(tools.error))
      ensures forall other :: other != name ==>
                (other in client.transports <==> other in old(client.transports))
                && (other in client.transports ==> client.transports[other] == old(client.transports)[other])
      ensures name in old(client.transports) && old(client.transports)[name].SseT? ==>
                tools == ToolsFrom(old(client.transports[name].sse.PendingReply(MethodToolsList, NullParams, client.transports[name].sse.host.json.tools)))
      ensures name in old(client.transports) && old(client.transports)[name].StdioT? && old(client.transports[name].stdio.Ready()) ==>
                tools == ToolsFrom(old(client.transports[name].stdio.PendingReply(client.transports[name].stdio.host.json.tools)))
    {
      if !client.ServerExists(name) {
        return NotFoundObject(NotFoundMessage(name)), Err(NotFoundError(name));
      }
      var listed := client.ListTools(name);
      tools := listed;
      if listed.Err? {
        return ServerError(listed.error), listed;
      }
      r := OkObject(listed.value);
    }

    /** Invoke a tool on a configured server and log the invocation; an
        unconfigured name is answered with not-found and neither the registry
        nor the log is touched. The response does not depend on whether
        logging worked. */
    method Invoke(name: string, request: InvokeRequest, durationMs: int, now: nat)
      returns (r: ActionResult<InvokeResponse>, ghost outcome: Result<McpCallToolResult, Exception>)
      requires Valid()
      modifies client, client.Repr, logger
      ensures Valid() && fresh(client.Repr - old(client.Repr))
      ensures !client.ServerExists(name) ==>
                && r == NotFoundObject(NotFoundMessage(name))
                && client.transports == old(client.transports) && logger.rows == old(logger.rows)
      ensures client.ServerExists(name) ==>
                var response := ClientService.Respond(outcome);
                && r == OkObject(response)
                && logger.rows == old(logger.rows)
                     + (if old(logger.disposed) then []
                        else [InvocationLogging.ToRow(LogEntry(name, request, Some(response), None, durationMs, now, json), |old(logger.rows)| + 1)])
      ensures forall other :: other != name ==>
                (other in client.transports <==> other in old(client.transports))
                && (other in client.transports ==> client.transports[other] == old(client.transports)[other])
      ensures name in old(client.transports) && old(client.transports)[name].SseT? ==>
                outcome == CallResultFrom(old(client.transports[name].sse.PendingReply(MethodToolsCall, CallParams(request.tool, request.params), client.transports[name].sse.host.json.callResult)))
      ensures name in old(client.transports) && old(client.transports)[name].StdioT? && old(client.transports[name].stdio.Ready()) ==>
                outcome == CallResultFrom(old(client.transports[name].stdio.PendingReply(client.transports[name].stdio.host.json.callResult)))
    {
      if !client.ServerExists(name) {
        return NotFoundObject(NotFoundMessage(name)), Err(NotFoundError(name));
      }
      var response;
      response, outcome := client.InvokeTool(name, request);
      LogInvocation(name, request, Some(response), None, durationMs, now);
      r := OkObject(response);
    }

    /** Build the entry and hand it to the logger; a logger that fails is
        ignored. */
    method LogInvocation(serverName: string, request: InvokeRequest, response: Option<InvokeResponse>,
                         exception: Option<Exception>, durationMs: int, now: nat)
      requires Valid()
      modifies logger
      ensures Valid() && logger.disposed == old(logger.disposed)
      ensures logger.rows == old(logger.rows)
                + (if old(logger.disposed) then []
                   else [InvocationLogging.ToRow(LogEntry(serverName, request, response, exception, durationMs, now, json), |old(logger.rows)| + 1)])
    {
      var parameters := SanitizeParams(request.params, json);
      var log := InvocationLogging.InvocationLog(
        0, now, serverName, request.tool, parameters,
        response.Some? && response.value.success, durationMs, SummarizeResponse(response, json),
        if exception.Some? then Some(exception.value.message) else if response.Some? then response.value.error else None);
      var logged := logger.LogAsync(log);
    }

    /** Shut a configured server down; an unconfigured name is answered with
        not-found and the registry is not touched. */
    method Shutdown(name: string) returns (r: ActionResult<string>)
      requires Valid()
      modifies client, client.Repr
      ensures Valid() && client.Repr == old(client.Repr)
      ensures !client.ServerExists(name) ==> r == NotFoundObject(NotFoundMessage(name)) && client.transports == old(client.transports)
      ensures client.ServerExists(name) ==> client.transports == old(client.transports) - {name} && (r.OkObject? ==> r.value == ShutdownMessage(name))
      ensures client.ServerExists(name) && name !in old(client.transports) ==> r == OkObject(ShutdownMessage(name))
    {
      if !client.ServerExists(name) {
        return NotFoundObject(NotFoundMessage(name));
      }
      var done := client.ShutdownServer(name);
      if done.Err? {
        return ServerError(done.error);
      }
      r := OkObject(ShutdownMessage(name));
    }
  }
}
