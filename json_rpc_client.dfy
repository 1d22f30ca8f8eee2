/** The JSON-RPC client of the process-manager design: one request-id counter
    shared by every server process, requests written to a process's standard
    input under its write lock, replies read back from its standard output. */
module JsonRpcClient {
  import opened Wrappers
  import opened Models
  import opened JsonRpc
  import opened Platform
  import opened ProcessManager

  /** The notification that completes the handshake. Unlike the transports'
      notification, its `params` member is written, as `null`. */
  function InitializedNotification(): (m: Message)
    ensures m.Notification? && m.methodName == MethodInitialized && m.paramsMember == Some(NullParams)
  {
    NullParamsNotification(MethodInitialized)
  }

  class McpJsonRpcClient {
    /** The JSON deserialiser the replies go through. */
    const json: JsonCodec
    var requestId: int
    /** The request ids handed out so far, to whichever process. */
    ghost var issued: seq<int>

    ghost predicate Valid()
      reads this
    {
      IssuedInOrder(issued, requestId)
    }

    constructor(json: JsonCodec)
      ensures Valid() && this.json == json && requestId == 0 && issued == []
    {
      this.json := json;
      requestId := 0;
      issued := [];
    }

    /** What the next request to `p` yields: a disposed write lock refuses the
        write; else the first line of `p`'s output for the next id is parsed. */
    ghost function PendingReply<T>(p: McpServerProcess, decode: string -> Decoded<T>): Result<Option<T>, Exception>
      reads this, p
    {
      if p.writeLockDisposed then Err(DisposedError())
      else ParseResponse(ScanForResponse(p.stdout, NextId(requestId)).line, decode)
    }

    /** One request went to `p`: the shared counter moved to its id, the
        request was written, and its reply (with every line before it) was
        read from `p`. Nothing else changed. */
    twostate predicate RequestExchanged(p: McpServerProcess, methodName: string, params: Params)
      reads this, p
    {
      && requestId == NextId(old(requestId))
      && issued == old(issued) + [requestId]
      && p.process == old(p.process) && p.writeLockDisposed == old(p.writeLockDisposed)
      && p.isInitialized == old(p.isInitialized)
      && if old(p.writeLockDisposed) then p.stdin == old(p.stdin) && p.stdout == old(p.stdout)
         else p.stdin == old(p.stdin) + [NewRequest(requestId, methodName, params)]
              && p.stdout == old(p.stdout)[ScanForResponse(old(p.stdout), requestId).consumed..]
    }

    /** Take the next id, write the request, read the reply for that id and
        parse it. */
    method SendRequest<T>(p: McpServerProcess, methodName: string, params: Params, decode: string -> Decoded<T>)
      returns (r: Result<Option<T>, Exception>)
      requires Valid()
      modifies this, p
      ensures Valid()
      ensures RequestExchanged(p, methodName, params)
      ensures r == old(PendingReply(p, decode))
    {
      NextIdExtends(issued, requestId);
      var id := NextId(requestId);
      requestId := id;
      issued := issued + [id];
      var written := WriteMessage(p, NewRequest(id, methodName, params));
      if written.Err? {
        return Err(written.error);
      }
      var scan := ReadResponse(p.stdout, id);
      p.stdout := p.stdout[scan.consumed..];
      r := ParseResponse(scan.line, decode);
    }

    /** Write a notification; nothing is read back. */
    method SendNotification(p: McpServerProcess, methodName: string) returns (r: Result<(), Exception>)
      modifies p
      ensures p.writeLockDisposed ==> r == Err(DisposedError()) && unchanged(p)
      ensures !p.writeLockDisposed ==> r == Ok(()) && p.stdin == old(p.stdin) + [NullParamsNotification(methodName)]
      ensures p.process == old(p.process) && p.writeLockDisposed == old(p.writeLockDisposed)
      ensures p.isInitialized == old(p.isInitialized) && p.stdout == old(p.stdout)
    {
      r := WriteMessage(p, NullParamsNotification(methodName));
    }

    /** Write one message as a line under `p`'s write lock, which refuses once
        it has been disposed. */
    method WriteMessage(p: McpServerProcess, message: Message) returns (r: Result<(), Exception>)
      modifies p`stdin
      ensures p.writeLockDisposed ==> r == Err(DisposedError()) && p.stdin == old(p.stdin)
      ensures !p.writeLockDisposed ==> r == Ok(()) && p.stdin == old(p.stdin) + [message]
    {
      if p.writeLockDisposed {
        return Err(DisposedError());
      }
      p.stdin := p.stdin + [message];
      r := Ok(());
    }

    /** The handshake: an `initialize` request, then, once its reply parsed,
        the `initialized` notification. The process's own flag is left alone. */
    method InitializeServer(p: McpServerProcess) returns (r: Result<(), Exception>)
      requires Valid()
      modifies this, p
      ensures Valid()
      ensures r == (match old(PendingReply(p, json.untyped)) case Err(e) => Err(e) case Ok(_) => Ok(()))
      ensures requestId == NextId(old(requestId)) && issued == old(issued) + [requestId]
      ensures p.process == old(p.process) && p.writeLockDisposed == old(p.writeLockDisposed)
      ensures p.isInitialized == old(p.isInitialized)
      ensures !p.writeLockDisposed ==>
                && p.stdout == old(p.stdout)[ScanForResponse(old(p.stdout), requestId).consumed..]
                && p.stdin == old(p.stdin) + [NewRequest(requestId, MethodInitialize, HandshakeParams())]
                                           + (if r.Ok? then [InitializedNotification()] else [])
    {
      var reply := SendRequest(p, MethodInitialize, HandshakeParams(), json.untyped);
      if reply.Err? {
        return Err(reply.error);
      }
      r := SendNotification(p, MethodInitialized);
    }
  }

  /** One counter serves every process: until it wraps, a request id is never
      reused, whichever processes the requests went to. */
  lemma IdsAreNeverReused(issued: seq<int>, counter: int, j: int, k: int)
    requires IssuedInOrder(issued, counter)
    requires |issued| <= Int32Max
    requires 0 <= j < |issued| && 0 <= k < |issued| && j != k
    ensures issued[j] != issued[k]
  {
    IssuedIdsIncrease(issued, counter);
  }
}
