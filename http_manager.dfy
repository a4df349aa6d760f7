/** `MCPServerManager` of the REST/WebSocket wrapper (mcp_http_wrapper_fixed.py):
    it launches the child, performs the MCP handshake that fills the tool
    cache, forwards requests one line at a time with a read timeout, and stops
    the child with escalation from terminate to kill. */
module HttpManager {
  import opened Json
  import opened Channel
  import opened Subprocess

  /** Seconds send_message waits for a reply line. */
  const ReplyTimeoutSeconds: nat := 30

  /** Seconds stop waits after terminate before it kills. */
  const GraceSeconds: nat := 5

  /** The `initialize` request of the handshake, with a fresh uuid as id. */
  function InitializeRequest(id: string): (r: Json)
  {
    JObj(map[
      "jsonrpc" := JStr("2.0"),
      "id" := JStr(id),
      "method" := JStr("initialize"),
      "params" := JObj(map[
        "protocolVersion" := JStr("2024-11-05"),
        "capabilities" := JObj(map["tools" := JObj(map[])]),
        "clientInfo" := JObj(map["name" := JStr("telegram-mcp-remote"), "version" := JStr("1.0.0")])
      ])
    ])
  }

  /** The `tools/list` request of the handshake: no params. */
  function ToolsListRequest(id: string): (r: Json)
  {
    JObj(map["jsonrpc" := JStr("2.0"), "id" := JStr(id), "method" := JStr("tools/list")])
  }

  /** Both handshake requests are JSON-RPC 2.0 requests carrying the given
      id; initialize announces protocol version 2024-11-05, and tools/list
      has no params. */
  lemma HandshakeRequestsShape(initId: string, toolsId: string)
    ensures PySubscript(InitializeRequest(initId), "jsonrpc") == Ok(JStr("2.0"))
    ensures PySubscript(InitializeRequest(initId), "id") == Ok(JStr(initId))
    ensures PySubscript(InitializeRequest(initId), "method") == Ok(JStr("initialize"))
    ensures Nested(InitializeRequest(initId), "params", "protocolVersion") == Some(JStr("2024-11-05"))
    ensures PySubscript(ToolsListRequest(toolsId), "jsonrpc") == Ok(JStr("2.0"))
    ensures PySubscript(ToolsListRequest(toolsId), "id") == Ok(JStr(toolsId))
    ensures PySubscript(ToolsListRequest(toolsId), "method") == Ok(JStr("tools/list"))
    ensures PySubscript(ToolsListRequest(toolsId), "params").Err?
  {
  }

  /** The request call_tool sends: the tool's name and the caller's
      parameters, passed through untouched as the arguments. */
  function ToolCallRequest(id: string, toolName: string, parameters: Json): (r: Json)
    ensures PySubscript(r, "jsonrpc") == Ok(JStr("2.0"))
    ensures PySubscript(r, "id") == Ok(JStr(id))
    ensures PySubscript(r, "method") == Ok(JStr("tools/call"))
    ensures Nested(r, "params", "name") == Some(JStr(toolName))
    ensures Nested(r, "params", "arguments") == Some(parameters)
  {
    JObj(map[
      "jsonrpc" := JStr("2.0"),
      "id" := JStr(id),
      "method" := JStr("tools/call"),
      "params" := JObj(map["name" := JStr(toolName), "arguments" := parameters])
    ])
  }

  /** The test `"result" in r and "tools" in r["result"]` and the read
      `r["result"]["tools"]` of the handshake, evaluated as Python does, with
      its exceptions: Ok(None) when the test is false, Ok(Some(tools)) when
      it holds and the read succeeds. */
  function ToolsOfListReply(reply: Json): Result<Option<Json>, PyError>
  {
    match PyIn("result", reply)
    case Err(e) => Err(e)
    case Ok(false) => Ok(None)
    case Ok(true) =>
      match PySubscript(reply, "result")
      case Err(e) => Err(e)
      case Ok(result) =>
        match PyIn("tools", result)
        case Err(e) => Err(e)
        case Ok(false) => Ok(None)
        case Ok(true) =>
          match PySubscript(result, "tools")
          case Err(e) => Err(e)
          case Ok(tools) => Ok(Some(tools))
  }

  /** The tool cache after the tools/list exchange: replaced by the listed
      tools when there are some; otherwise, and whenever the exchange or the
      evaluation raised (the handshake swallows its exceptions), kept. */
  function CacheAfter(cache: Json, reply: Result<Json, SendError>): Json
  {
    if reply.Err? then cache
    else
      match ToolsOfListReply(reply.value)
      case Ok(Some(tools)) => tools
      case _ => cache
  }

  /** The cache is replaced exactly when the reply is an object whose
      `result` is an object holding `tools`, and then by that value; every
      other reply, including those on which Python raises, leaves it. */
  lemma CacheRule(cache: Json, reply: Result<Json, SendError>)
    ensures reply.Ok? && Nested(reply.value, "result", "tools").Some? ==>
              CacheAfter(cache, reply) == Nested(reply.value, "result", "tools").value
    ensures !(reply.Ok? && Nested(reply.value, "result", "tools").Some?) ==>
              CacheAfter(cache, reply) == cache
  {
    if reply.Ok? {
      var v := reply.value;
      if v.JObj? && "result" in v.fields {
        var result := v.fields["result"];
        assert PySubscript(v, "result") == Ok(result);
        if result.JObj? {
          assert PyIn("tools", result) == Ok("tools" in result.fields);
        }
      }
    }
  }

  /** What the handshake did: the requests written, the reply lines left
      unread, and the resulting tool cache. */
  datatype Handshake = Handshake(requests: seq<Json>, unread: seq<string>, cache: Json)

  /** The handshake on a running child whose unread reply lines are `q`:
      initialize, and only if that exchange succeeded, tools/list. */
  function RunHandshake(c: Codec, q: seq<string>, cache: Json, initId: string, toolsId: string,
                        initTimedOut: bool, toolsTimedOut: bool): (h: Handshake)
  {
    var (initReply, q1) := Exchange(c, q, initTimedOut);
    if initReply.Err? then Handshake([InitializeRequest(initId)], q1, cache)
    else
      var (toolsReply, q2) := Exchange(c, q1, toolsTimedOut);
      Handshake([InitializeRequest(initId), ToolsListRequest(toolsId)], q2, CacheAfter(cache, toolsReply))
  }

  /** The handshake always sends initialize, and sends tools/list exactly
      when initialize got a reply; without that second exchange the cache
      is untouched. */
  lemma HandshakeShape(c: Codec, q: seq<string>, cache: Json, initId: string, toolsId: string,
                       initTimedOut: bool, toolsTimedOut: bool)
    ensures var h := RunHandshake(c, q, cache, initId, toolsId, initTimedOut, toolsTimedOut);
            && 1 <= |h.requests| <= 2 && h.requests[0] == InitializeRequest(initId)
            && (|h.requests| == 2 <==> Exchange(c, q, initTimedOut).0.Ok?)
            && (|h.requests| == 2 ==> h.requests[1] == ToolsListRequest(toolsId))
            && (|h.requests| == 1 ==> h.cache == cache)
  {
  }

  /** Round trip of the tool list: when the child answers both handshake
      requests in time, the cache afterwards is exactly the `result.tools`
      of its second reply. */
  lemma HandshakeCachesListedTools(c: Codec, initReply: Json, listReply: Json, more: seq<string>,
                                   cache: Json, initId: string, toolsId: string)
    requires ValidCodec(c)
    requires Nested(listReply, "result", "tools").Some?
    ensures var h := RunHandshake(c, [Frame(c, initReply), Frame(c, listReply)] + more, cache,
                                  initId, toolsId, false, false);
            h.cache == Nested(listReply, "result", "tools").value
            && h.requests == [InitializeRequest(initId), ToolsListRequest(toolsId)]
            && h.unread == more
  {
    var q1 := [Frame(c, listReply)] + more;
    assert [Frame(c, initReply), Frame(c, listReply)] + more == [Frame(c, initReply)] + q1;
    ReadsFrame(c, initReply, q1);
    ReadsFrame(c, listReply, more);
    CacheRule(cache, Ok(listReply));
  }

  /** `stop` on a child: terminate, wait up to the grace period, and only if
      that wait timed out, kill and wait without bound. */
  function Stopped(p: Child, exitsInGrace: bool): (q: Child)
    ensures q.pid == p.pid && q.exited
    ensures |q.calls| > |p.calls| + 1 && q.calls[..|p.calls|] == p.calls
    ensures q.calls[|p.calls|] == Terminate && q.calls[|p.calls| + 1] == WaitAtMost(GraceSeconds)
    ensures Kill in q.calls[|p.calls|..] <==> !exitsInGrace
    ensures q.calls[|q.calls| - 1] == if exitsInGrace then WaitAtMost(GraceSeconds) else Wait
  {
    var escalation := if exitsInGrace then [] else [Kill, Wait];
    var added := [Terminate, WaitAtMost(GraceSeconds)] + escalation;
    assert (p.calls + added)[|p.calls|..] == added;
    Child(p.pid, p.calls + added, true)
  }

  class ServerManager {
    /** `json.dumps` and `json.loads`. */
    const codec: Codec
    var process: Option<Child>
    /** Everything written to the current child's stdin, one entry per write. */
    var stdin: Option<seq<string>>
    /** The lines of the current child's stdout not read yet. */
    var stdout: Option<seq<string>>
    var isRunning: bool
    var toolsCache: Json
    /** The messages whose frames make up `stdin`. */
    ghost var sent: seq<Json>

    ghost predicate Valid()
      reads this
    {
      && (stdin.Some? ==> stdin.value == Frames(codec, sent))
      && (isRunning ==> process.Some? && stdin.Some? && stdout.Some?)
    }

    /** The guard of send_message lets a message through. */
    predicate Ready()
      reads this
    {
      isRunning && stdin.Some? && stdout.Some?
    }

    constructor(codec: Codec)
      ensures Valid()
      ensures this.codec == codec && process == None && stdin == None && stdout == None
      ensures !isRunning && toolsCache == JArr([]) && sent == []
    {
      this.codec := codec;
      process, stdin, stdout := None, None, None;
      isRunning := false;
      toolsCache := JArr([]);
      sent := [];
    }

    /** One send_message call with `message`, whose read timed out when
      `timedOut`, answered `r`: when the guard refuses, nothing is written
      or read; otherwise exactly one frame is appended to stdin and the
      reply is the next unread line. Nothing else changes. */
    twostate predicate Sent(message: Json, timedOut: bool, new r: Result<Json, SendError>)
      reads this
    {
      && process == old(process) && isRunning == old(isRunning) && toolsCache == old(toolsCache)
      && (!old(Ready()) ==>
            r == Err(NotRunning) && stdin == old(stdin) && stdout == old(stdout) && sent == old(sent))
      && (old(Ready()) ==>
            && stdin == Some(old(stdin).value + [Frame(codec, message)])
            && sent == old(sent) + [message]
            && stdout.Some?
            && (r, stdout.value) == Exchange(codec, old(stdout).value, timedOut))
    }

    method SendMessage(message: Json, timedOut: bool) returns (r: Result<Json, SendError>)
      requires Valid()
      modifies this
      ensures Valid() && Sent(message, timedOut, r)
    {
      if !isRunning || stdin.None? || stdout.None? {
        return Err(NotRunning);
      }
      stdin := Some(stdin.value + [Frame(codec, message)]);
      sent := sent + [message];
      assert Frames(codec, sent) == Frames(codec, old(sent)) + [Frame(codec, message)];
      if timedOut {
        return Err(Timeout);
      }
      var (line, rest) := ReadLine(stdout.value);
      stdout := Some(rest);
      if line != "" {
        match codec.loads(Strip(line))
        case Ok(v) => r := Ok(v);
        case Err(why) => r := Err(Malformed(why));
      } else {
        r := Err(NoResponse);
      }
    }

    method CallTool(toolName: string, parameters: Json, id: string, timedOut: bool)
      returns (r: Result<Json, SendError>)
      requires Valid()
      modifies this
      ensures Valid() && Sent(ToolCallRequest(id, toolName, parameters), timedOut, r)
    {
      r := SendMessage(ToolCallRequest(id, toolName, parameters), timedOut);
    }

    /** `_initialize_mcp`: the two exchanges of the handshake; any exception,
      including "not running", is logged and swallowed. */
    method Initialize(initId: string, toolsId: string, initTimedOut: bool, toolsTimedOut: bool)
      requires Valid()
      modifies this
      ensures Valid()
      ensures process == old(process) && isRunning == old(isRunning)
      ensures !old(Ready()) ==>
                stdin == old(stdin) && stdout == old(stdout) && toolsCache == old(toolsCache) && sent == old(sent)
      ensures old(Ready()) ==>
                var h := RunHandshake(codec, old(stdout).value, old(toolsCache), initId, toolsId,
                                      initTimedOut, toolsTimedOut);
                && stdin == Some(old(stdin).value + Frames(codec, h.requests))
                && sent == old(sent) + h.requests
                && stdout == Some(h.unread)
                && toolsCache == h.cache
    {
      ghost var ready, w0, q0 := Ready(), stdin, stdout;
      ghost var h := if ready then RunHandshake(codec, q0.value, toolsCache, initId, toolsId, initTimedOut, toolsTimedOut)
                     else Handshake([], [], toolsCache);
      var initReply := SendMessage(InitializeRequest(initId), initTimedOut);
      if initReply.Err? {
        if ready {
          HandshakeUnfold(codec, q0.value, old(toolsCache), initId, toolsId, initTimedOut, toolsTimedOut);
          FramesSnoc(codec, [], InitializeRequest(initId));
          assert [] + [InitializeRequest(initId)] == [InitializeRequest(initId)];
          assert Frames(codec, h.requests) == [Frame(codec, InitializeRequest(initId))];
          assert stdin.value == w0.value + Frames(codec, h.requests);
        }
        return;
      }
      HandshakeUnfold(codec, q0.value, old(toolsCache), initId, toolsId, initTimedOut, toolsTimedOut);
      ListTools(toolsId, toolsTimedOut);
      FramesSnoc(codec, [InitializeRequest(initId)], ToolsListRequest(toolsId));
      FramesSnoc(codec, [], InitializeRequest(initId));
      assert [] + [InitializeRequest(initId)] == [InitializeRequest(initId)];
      assert [InitializeRequest(initId)] + [ToolsListRequest(toolsId)] == h.requests;
      assert stdin.value == w0.value + Frames(codec, h.requests);
    }

    /** The tools/list half of the handshake, with its cache update. */
    method ListTools(toolsId: string, toolsTimedOut: bool)
      requires Valid()
      modifies this
      ensures Valid()
      ensures process == old(process) && isRunning == old(isRunning)
      ensures !old(Ready()) ==>
                stdin == old(stdin) && stdout == old(stdout) && toolsCache == old(toolsCache) && sent == old(sent)
      ensures old(Ready()) ==>
                var e := Exchange(codec, old(stdout).value, toolsTimedOut);
                && stdin == Some(old(stdin).value + [Frame(codec, ToolsListRequest(toolsId))])
                && sent == old(sent) + [ToolsListRequest(toolsId)]
                && stdout == Some(e.1)
                && toolsCache == CacheAfter(old(toolsCache), e.0)
    {
      var toolsReply := SendMessage(ToolsListRequest(toolsId), toolsTimedOut);
      if toolsReply.Ok? {
        match ToolsOfListReply(toolsReply.value)
        case Ok(Some(tools)) => toolsCache := tools;
        case _ =>
      }
    }

    /** `start_mcp_server`: a launch that raises leaves the manager stopped
      and everything else as it was; a successful launch wires fresh pipes,
      marks the manager running, runs the handshake and reports success
      whatever the handshake's outcome. */
    method Start(launch: Launch, initId: string, toolsId: string, initTimedOut: bool, toolsTimedOut: bool)
      returns (ok: bool)
      requires Valid()
      modifies this
      ensures Valid()
      ensures ok == launch.Launched? && isRunning == ok
      ensures !ok ==>
                process == old(process) && stdin == old(stdin) && stdout == old(stdout)
                && toolsCache == old(toolsCache)
      ensures ok ==>
                var h := RunHandshake(codec, launch.output, old(toolsCache), initId, toolsId,
                                      initTimedOut, toolsTimedOut);
                && process == Some(Spawned(launch))
                && stdin == Some(Frames(codec, h.requests))
                && stdout == Some(h.unread)
                && toolsCache == h.cache
    {
      if launch.LaunchFailed? {
        isRunning := false;
        return false;
      }
      process := Some(Spawned(launch));
      stdin, stdout := Some([]), Some(launch.output);
      sent := [];
      isRunning := true;
      ghost var h := RunHandshake(codec, launch.output, toolsCache, initId, toolsId, initTimedOut, toolsTimedOut);
      Initialize(initId, toolsId, initTimedOut, toolsTimedOut);
      assert [] + Frames(codec, h.requests) == Frames(codec, h.requests);
      return true;
    }

    /** `stop`: always marks the manager stopped; with a child, terminates it
      and escalates to kill if it outlives the grace period. The pipes and
      the tool cache are left as they were. */
    method Stop(exitsInGrace: bool)
      requires Valid()
      modifies this
      ensures Valid() && !isRunning
      ensures process == if old(process).None? then None else Some(Stopped(old(process).value, exitsInGrace))
      ensures stdin == old(stdin) && stdout == old(stdout) && toolsCache == old(toolsCache) && sent == old(sent)
    {
      isRunning := false;
      if process.Some? {
        var p := process.value;
        p := p.(calls := p.calls + [Terminate]);
        p := p.(calls := p.calls + [WaitAtMost(GraceSeconds)]);
        ghost var before := process.value.calls;
        if exitsInGrace {
          p := p.(exited := true);
          assert p.calls == before + ([Terminate, WaitAtMost(GraceSeconds)] + []);
        } else {
          p := p.(calls := p.calls + [Kill]);
          p := p.(calls := p.calls + [Wait], exited := true);
          assert p.calls == before + ([Terminate, WaitAtMost(GraceSeconds)] + [Kill, Wait]);
        }
        process := Some(p);
      }
    }
  }

  /** The handshake is the initialize exchange followed, when that
      succeeded, by the tools/list exchange on what it left unread. */
  lemma HandshakeUnfold(c: Codec, q: seq<string>, cache: Json, initId: string, toolsId: string,
                        initTimedOut: bool, toolsTimedOut: bool)
    ensures var e1 := Exchange(c, q, initTimedOut);
            var h := RunHandshake(c, q, cache, initId, toolsId, initTimedOut, toolsTimedOut);
            && (e1.0.Err? ==> h == Handshake([InitializeRequest(initId)], e1.1, cache))
            && (e1.0.Ok? ==>
                  var e2 := Exchange(c, e1.1, toolsTimedOut);
                  h == Handshake([InitializeRequest(initId), ToolsListRequest(toolsId)], e2.1, CacheAfter(cache, e2.0)))
  {
  }

  /** What the child reads of a tools/call: when the last message written to
      its stdin is a tool call, its last line decodes to a `tools/call`
      request carrying the caller's parameters unchanged. */
  lemma ChildSeesToolCall(c: Codec, earlier: seq<Json>, id: string, toolName: string, parameters: Json)
    requires ValidCodec(c)
    ensures var lines := SplitLines(Concat(Frames(c, earlier + [ToolCallRequest(id, toolName, parameters)])));
            |lines| == |earlier| + 1
            && c.loads(lines[|earlier|]).Ok?
            && PySubscript(c.loads(lines[|earlier|]).value, "method") == Ok(JStr("tools/call"))
            && Nested(c.loads(lines[|earlier|]).value, "params", "arguments") == Some(parameters)
  {
    var messages := earlier + [ToolCallRequest(id, toolName, parameters)];
    ChildReadsMessages(c, messages);
    assert messages[|earlier|] == ToolCallRequest(id, toolName, parameters);
  }
}
