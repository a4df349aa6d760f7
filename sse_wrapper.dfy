/** The SSE wrapper (mcp_wrapper_fixed.py): a simpler `MCPServerManager`
    with no running flag and no read timeout, the registry of open SSE
    streams (`mcp_connections`) that each stream enters on start and leaves
    in its `finally`, the events a stream yields, the error envelope of the
    POST handler, and the `/status` and `/health` reports. */
module SseWrapper {
  import opened Json
  import opened Channel
  import opened Subprocess

  /** `stop` of this wrapper: terminate, then wait without bound. */
  function Stopped(p: Child): (q: Child)
    ensures q.pid == p.pid && q.exited
    ensures q.calls == p.calls + [Terminate, Wait]
    ensures Kill !in q.calls[|p.calls|..]
  {
    var q := Child(p.pid, p.calls + [Terminate, Wait], true);
    assert q.calls[|p.calls|..] == [Terminate, Wait];
    q
  }

  class ServerManager {
    /** `json.dumps` and `json.loads`. */
    const codec: Codec
    var process: Option<Child>
    /** Everything written to the current child's stdin, one entry per write. */
    var stdin: Option<seq<string>>
    /** The lines of the current child's stdout not read yet. */
    var stdout: Option<seq<string>>
    /** The messages whose frames make up `stdin`. */
    ghost var sent: seq<Json>

    ghost predicate Valid()
      reads this
    {
      stdin.Some? ==> stdin.value == Frames(codec, sent)
    }

    /** The guard of send_message, `not self.process or not self.stdin`,
      lets a message through. A process handle and a stream writer are
      always truthy, so only their absence stops it. */
    predicate Ready()
      reads this
    {
      process.Some? && stdin.Some?
    }

    constructor(codec: Codec)
      ensures Valid()
      ensures this.codec == codec && process == None && stdin == None && stdout == None && sent == []
    {
      this.codec := codec;
      process, stdin, stdout := None, None, None;
      sent := [];
    }

    /** `start_mcp_server`: a launch that raises assigns nothing and reports
      failure; a successful one wires fresh pipes and reports success. */
    method Start(launch: Launch) returns (ok: bool)
      requires Valid()
      modifies this
      ensures Valid()
      ensures ok == launch.Launched?
      ensures !ok ==> process == old(process) && stdin == old(stdin) && stdout == old(stdout) && sent == old(sent)
      ensures ok ==> process == Some(Spawned(launch)) && stdin == Some([]) && stdout == Some(launch.output) && sent == []
    {
      if launch.LaunchFailed? {
        return false;
      }
      process := Some(Spawned(launch));
      stdin, stdout := Some([]), Some(launch.output);
      sent := [];
      return true;
    }

    /** One send_message call with `message` that answered `r`: when the
      guard refuses, nothing is written or read; otherwise exactly one frame
      is appended to stdin, and the reply is the next unread line (there is
      no timeout: the read waits for a line or the end of the stream), or
      an AttributeError when there is no stdout to read. When the awaiting
      task is cancelled (`cancelled`: no line arrives before the caller goes
      away) the read consumes nothing, so the reply the child writes later
      is left for the next send. */
    twostate predicate Sent(message: Json, cancelled: bool, new r: Result<Json, SendError>)
      reads this
    {
      && process == old(process) && stdout.Some? == old(stdout).Some?
      && (!old(Ready()) ==>
            r == Err(NotRunning) && stdin == old(stdin) && stdout == old(stdout) && sent == old(sent))
      && (old(Ready()) ==>
            && stdin == Some(old(stdin).value + [Frame(codec, message)])
            && sent == old(sent) + [message]
            && (old(stdout).None? ==> r == Err(NoReader) && stdout == None)
            && (old(stdout).Some? && cancelled ==> r == Err(Cancelled) && stdout == old(stdout))
            && (old(stdout).Some? && !cancelled ==> (r, stdout.value) == Exchange(codec, old(stdout).value, false)))
    }

    method SendMessage(message: Json, cancelled: bool) returns (r: Result<Json, SendError>)
      requires Valid()
      modifies this
      ensures Valid() && Sent(message, cancelled, r)
    {
      if process.None? || stdin.None? {
        return Err(NotRunning);
      }
      stdin := Some(stdin.value + [Frame(codec, message)]);
      sent := sent + [message];
      assert Frames(codec, sent) == Frames(codec, old(sent)) + [Frame(codec, message)];
      if stdout.None? {
        return Err(NoReader);
      }
      if cancelled {
        return Err(Cancelled);
      }
      var (line, rest) := ReadLine(stdout.value);
      stdout := Some(rest);
      if line != "" {
        match codec.loads(Strip(line))
        case Ok(v) => r := Ok(v);
        case Err(why) => r := Err(Malformed(why));
      } else {
        r := Err(NoResponse);
      }
    }

    /** `stop`: with a child, terminate it and wait for it to exit; with
      none, nothing. The handle is kept, so the wrapper goes on reporting
      the server as running. */
    method Stop()
      requires Valid()
      modifies this
      ensures Valid()
      ensures process == if old(process).None? then None else Some(Stopped(old(process).value))
      ensures stdin == old(stdin) && stdout == old(stdout) && sent == old(sent)
    {
      if process.Some? {
        var p := process.value;
        p := p.(calls := p.calls + [Terminate]);
        p := p.(calls := p.calls + [Wait], exited := true);
        assert p.calls == old(process).value.calls + [Terminate, Wait];
        process := Some(p);
      }
    }
  }

  /** The request a stream sends for the tool list: JSON-RPC 2.0, the
      integer id 1 every stream uses, method tools/list. */
  function StreamToolsRequest(): (r: Json)
    ensures PySubscript(r, "jsonrpc") == Ok(JStr("2.0"))
    ensures PySubscript(r, "id") == Ok(JInt(1))
    ensures PySubscript(r, "method") == Ok(JStr("tools/list"))
    ensures PySubscript(r, "params").Err?
  {
    JObj(map["jsonrpc" := JStr("2.0"), "id" := JInt(1), "method" := JStr("tools/list")])
  }

  /** The events a stream yields. */
  datatype Event =
    | ConnectionEvent(id: string)
    | ToolsEvent(tools: Json)
    | HeartbeatEvent(timestamp: string)

  /** The dict each event is serialised from. */
  function Payload(e: Event): Json
  {
    match e
    case ConnectionEvent(id) => JObj(map["type" := JStr("connection"), "id" := JStr(id)])
    case ToolsEvent(tools) => JObj(map["type" := JStr("tools"), "tools" := tools])
    case HeartbeatEvent(ts) => JObj(map["type" := JStr("heartbeat"), "timestamp" := JStr(ts)])
  }

  /** What an SSE client makes of a payload: the event it describes, if any. */
  function EventOf(v: Json): Option<Event>
  {
    match PyGet(v, "type")
    case Ok(JStr("connection")) =>
      (match PySubscript(v, "id") case Ok(JStr(id)) => Some(ConnectionEvent(id)) case _ => None)
    case Ok(JStr("tools")) =>
      (match PySubscript(v, "tools") case Ok(tools) => Some(ToolsEvent(tools)) case _ => None)
    case Ok(JStr("heartbeat")) =>
      (match PySubscript(v, "timestamp") case Ok(JStr(ts)) => Some(HeartbeatEvent(ts)) case _ => None)
    case _ => None
  }

  /** Every event is recovered from its payload. */
  lemma PayloadRoundTrip(e: Event)
    ensures EventOf(Payload(e)) == Some(e)
  {
  }

  /** `f"data: {json.dumps(payload)}\n\n"`: one SSE event. */
  function SseFrame(c: Codec, e: Event): string
  {
    "data: " + c.dumps(Payload(e)) + "\n\n"
  }

  /** The frames of a sequence of events, in order. */
  function SseFrames(c: Codec, events: seq<Event>): seq<string>
  {
    seq(|events|, k requires 0 <= k < |events| => SseFrame(c, events[k]))
  }

  /** A client reading an SSE frame sees one `data:` line, whose text
      decodes to the payload and so to the event, followed by the blank
      line that ends the event. */
  lemma SseFrameDecodes(c: Codec, e: Event)
    requires ValidCodec(c)
    ensures var line := c.dumps(Payload(e));
            && SseFrame(c, e) == "data: " + line + "\n" + "\n"
            && '\n' !in line
            && c.loads(line).Ok? && EventOf(c.loads(line).value) == Some(e)
  {
    assert RoundTrips(c, Payload(e));
    PayloadRoundTrip(e);
  }

  /** A client's reading of one line of an SSE body as the event `e`: a
      `data: ` field whose value decodes to the payload of `e`. */
  predicate DataLineOf(c: Codec, line: string, e: Event)
  {
    && |line| >= 6 && line[..6] == "data: "
    && c.loads(line[6..]).Ok? && EventOf(c.loads(line[6..]).value) == Some(e)
  }

  /** The lines of an SSE body read as `events`: for each event in order,
      a data line that decodes to it and then the blank line ending it. */
  predicate ReadsAsEvents(c: Codec, lines: seq<string>, events: seq<Event>)
  {
    && |lines| == 2 * |events|
    && forall k :: 0 <= k < |events| ==> DataLineOf(c, lines[2 * k], events[k]) && lines[2 * k + 1] == ""
  }

  /** A client reading the body of a stream line by line gets, for each
      event in order, one data line that decodes to that event and then
      the blank line that ends it; nothing else. */
  lemma {:induction false} ClientReadsEvents(c: Codec, events: seq<Event>)
    requires ValidCodec(c)
    ensures ReadsAsEvents(c, SplitLines(Concat(SseFrames(c, events))), events)
  {
    if events != [] {
      var tail := events[1..];
      var rest := Concat(SseFrames(c, tail));
      assert SseFrames(c, events)[1..] == SseFrames(c, tail);
      assert Concat(SseFrames(c, events)) == SseFrame(c, events[0]) + rest;
      SseFrameLines(c, events[0], rest);
      ClientReadsEvents(c, tail);
      ReadsAsEventsCons(c, "data: " + c.dumps(Payload(events[0])), SplitLines(rest), events[0], tail);
      assert [events[0]] + tail == events;
    }
  }

  /** The lines of one SSE frame followed by more of the body. */
  lemma SseFrameLines(c: Codec, e: Event, rest: string)
    requires ValidCodec(c)
    ensures SplitLines(SseFrame(c, e) + rest) == ["data: " + c.dumps(Payload(e)), ""] + SplitLines(rest)
    ensures DataLineOf(c, "data: " + c.dumps(Payload(e)), e)
  {
    var d := c.dumps(Payload(e));
    var line := "data: " + d;
    SseFrameDecodes(c, e);
    assert SseFrame(c, e) + rest == line + "\n" + ("" + "\n" + rest);
    assert '\n' !in line by {
      assert forall k :: 0 <= k < |d| ==> line[6 + k] == d[k];
    }
    SplitFirstLine(line, "" + "\n" + rest);
    SplitFirstLine("", rest);
    assert line[..6] == "data: " && line[6..] == d;
  }

  lemma ReadsAsEventsCons(c: Codec, line: string, more: seq<string>, e: Event, tail: seq<Event>)
    requires DataLineOf(c, line, e) && ReadsAsEvents(c, more, tail)
    ensures ReadsAsEvents(c, [line, ""] + more, [e] + tail)
  {
    var lines, events := [line, ""] + more, [e] + tail;
    forall k | 0 <= k < |events|
      ensures DataLineOf(c, lines[2 * k], events[k]) && lines[2 * k + 1] == ""
    {
      if k > 0 {
        assert lines[2 * k] == more[2 * (k - 1)] && lines[2 * k + 1] == more[2 * (k - 1) + 1];
        assert events[k] == tail[k - 1];
      }
    }
  }

  /** The tools event of a stream, from the reply to its request (None when
      it sent none), as Python evaluates `"result" in r` and
      `r['result']['tools']`: any exception, from the request or the
      evaluation, is swallowed and there is no tools event. */
  function ToolsEventOf(reply: Option<Result<Json, SendError>>): Option<Json>
  {
    if reply.None? || reply.value.Err? then None
    else
      var r := reply.value.value;
      match PyIn("result", r)
      case Ok(true) =>
        (match PySubscript(r, "result")
         case Ok(result) =>
           (match PySubscript(result, "tools") case Ok(tools) => Some(tools) case Err(_) => None)
         case Err(_) => None)
      case _ => None
  }

  /** A tools event is produced exactly when the reply is an object whose
      `result` is an object holding `tools`, and carries that value. A reply
      with `result` but no `result.tools` raises inside the handler, which
      swallows it: no tools event. */
  lemma ToolsEventRule(reply: Option<Result<Json, SendError>>)
    ensures reply.Some? && reply.value.Ok? ==> ToolsEventOf(reply) == Nested(reply.value.value, "result", "tools")
    ensures !(reply.Some? && reply.value.Ok?) ==> ToolsEventOf(reply) == None
  {
    if reply.Some? && reply.value.Ok? {
      var r := reply.value.value;
      if r.JObj? && "result" in r.fields {
        assert PySubscript(r, "result") == Ok(r.fields["result"]);
      }
    }
  }

  /** The first `n` heartbeats, each stamped by the clock at its turn. */
  function Heartbeats(n: nat, clock: nat -> string): seq<Event>
  {
    seq(n, j requires 0 <= j < n => HeartbeatEvent(clock(j)))
  }

  /** The events of a stream left to run until the client disconnects,
      which it is seen to have done at the poll after `heartbeats` polls
      that found it connected. */
  function StreamEvents(id: string, reply: Option<Result<Json, SendError>>, heartbeats: nat,
                        clock: nat -> string): seq<Event>
  {
    [ConnectionEvent(id)]
    + (match ToolsEventOf(reply) case Some(tools) => [ToolsEvent(tools)] case None => [])
    + Heartbeats(heartbeats, clock)
  }

  /** The events a client receives when the stream is closed (or its task
      cancelled or interrupted by an exception) while suspended at the yield
      of event number `closedAfter`, counting from 0, or never. */
  function Delivered(events: seq<Event>, closedAfter: Option<nat>): (d: seq<Event>)
    ensures d <= events
  {
    if closedAfter.Some? && closedAfter.value + 1 < |events| then events[..closedAfter.value + 1] else events
  }

  /** The events a client of a stream receives: when the tools request was
      cancelled (the client went away while it waited) the stream ended
      there, after its connection event; otherwise the stream's events up
      to where it was closed. */
  function StreamDelivered(id: string, reply: Option<Result<Json, SendError>>, heartbeats: nat,
                           closedAfter: Option<nat>, clock: nat -> string): seq<Event>
  {
    if reply == Some(Err(Cancelled)) then [ConnectionEvent(id)]
    else Delivered(StreamEvents(id, reply, heartbeats, clock), closedAfter)
  }

  /** The shape of a stream: one connection event carrying the stream's id,
      then the tools event when the reply lists tools, then one heartbeat per
      poll that found the client connected, and nothing else. */
  lemma {:induction false} StreamShape(id: string, reply: Option<Result<Json, SendError>>, heartbeats: nat,
                                       clock: nat -> string)
    ensures var es := StreamEvents(id, reply, heartbeats, clock);
            var t := if ToolsEventOf(reply).Some? then 1 else 0;
            && |es| == 1 + t + heartbeats
            && es[0] == ConnectionEvent(id)
            && (t == 1 ==> es[1] == ToolsEvent(ToolsEventOf(reply).value))
            && (forall k :: 1 + t <= k < |es| ==> es[k] == HeartbeatEvent(clock(k - 1 - t)))
            && (forall k :: 1 <= k < |es| ==> !es[k].ConnectionEvent?)
  {
    var t := if ToolsEventOf(reply).Some? then 1 else 0;
    var tools: seq<Event> := if ToolsEventOf(reply).Some? then [ToolsEvent(ToolsEventOf(reply).value)] else [];
    var es := StreamEvents(id, reply, heartbeats, clock);
    assert es == [ConnectionEvent(id)] + tools + Heartbeats(heartbeats, clock);
    forall k | 1 + t <= k < |es|
      ensures es[k] == HeartbeatEvent(clock(k - 1 - t))
    {
      assert es[k] == Heartbeats(heartbeats, clock)[k - 1 - t];
    }
  }

  /** However early the stream ends, the client has received the
      connection event first, and what it received is a prefix of the
      stream; a cancelled tools request ends it right after that event. */
  lemma DeliveredStartsWithConnection(id: string, reply: Option<Result<Json, SendError>>, heartbeats: nat,
                                      clock: nat -> string, closedAfter: Option<nat>)
    ensures var d := StreamDelivered(id, reply, heartbeats, closedAfter, clock);
            && |d| >= 1 && d[0] == ConnectionEvent(id)
            && d <= StreamEvents(id, reply, heartbeats, clock)
            && (reply == Some(Err(Cancelled)) ==> d == [ConnectionEvent(id)])
  {
    StreamShape(id, reply, heartbeats, clock);
  }

  /** What a stream stores about itself in the registry: the request it
      serves, by identity, and the time it connected. */
  datatype Registration = Registration(request: nat, connectedAt: string)

  /** The reply of the POST handler: a JSON body, or the internal server
      error the framework sends when the handler itself raises. */
  datatype HttpReply = JsonReply(body: Json) | InternalError

  /** The error envelope `handle_mcp_message` returns. */
  function ErrorEnvelope(id: Json, message: string): (r: Json)
    ensures PySubscript(r, "jsonrpc") == Ok(JStr("2.0"))
    ensures PySubscript(r, "id") == Ok(id)
    ensures Nested(r, "error", "code") == Some(JInt(-1))
    ensures Nested(r, "error", "message") == Some(JStr(message))
    ensures PySubscript(r, "result").Err?
  {
    JObj(map[
      "jsonrpc" := JStr("2.0"),
      "id" := id,
      "error" := JObj(map["code" := JInt(-1), "message" := JStr(message)])
    ])
  }

  /** The except branch of `handle_mcp_message` for an exception with text
      `message`: `body` is the parsed request, or None when parsing was what
      raised. The id is `body.get("id")`, which on a body that is not an
      object raises again, out of the handler. */
  function FailureReply(body: Option<Json>, message: string): (r: HttpReply)
    ensures body.None? ==> r == JsonReply(ErrorEnvelope(JNull, message))
    ensures body.Some? && body.value.JObj? ==>
              r == JsonReply(ErrorEnvelope(if "id" in body.value.fields then body.value.fields["id"] else JNull, message))
    ensures body.Some? && !body.value.JObj? ==> r == InternalError
  {
    if body.None? then JsonReply(ErrorEnvelope(JNull, message))
    else
      match PyGet(body.value, "id")
      case Ok(id) => JsonReply(ErrorEnvelope(id, message))
      case Err(_) => InternalError
  }

  /** The wrapper's global state: the manager and the stream registry. */
  class Wrapper {
    const manager: ServerManager
    var connections: map<string, Registration>

    ghost predicate Valid()
      reads this, manager
    {
      manager.Valid()
    }

    constructor(codec: Codec)
      ensures Valid() && fresh(manager)
      ensures manager.codec == codec && manager.process == None && manager.stdin == None
      ensures connections == map[]
    {
      manager := new ServerManager(codec);
      connections := map[];
    }

    /** `/status`: the number of open streams, and whether the wrapper holds
      a child handle, with its pid. */
    function Status(): (r: Json)
      reads this, manager
      ensures PySubscript(r, "active_connections") == Ok(JInt(|connections|))
      ensures PySubscript(r, "mcp_server_running") == Ok(JBool(manager.process.Some?))
      ensures PySubscript(r, "mcp_server_pid") == Ok(if manager.process.Some? then JInt(manager.process.value.pid) else JNull)
      ensures Nested(r, "server_info", "version") == Some(JStr("1.0.0"))
    {
      JObj(map[
        "active_connections" := JInt(|connections|),
        "mcp_server_running" := JBool(manager.process.Some?),
        "mcp_server_pid" := if manager.process.Some? then JInt(manager.process.value.pid) else JNull,
        "server_info" := JObj(map[
          "name" := JStr("mcp-http-wrapper"),
          "version" := JStr("1.0.0"),
          "type" := JStr("local-proxy")
        ])
      ])
    }

    /** `/health` at time `timestamp`: always ok, and whether the wrapper
      holds a child handle. */
    function Health(timestamp: string): (r: Json)
      reads this, manager
      ensures PySubscript(r, "status") == Ok(JStr("ok"))
      ensures PySubscript(r, "timestamp") == Ok(JStr(timestamp))
      ensures PySubscript(r, "mcp_server_running") == Ok(JBool(manager.process.Some?))
    {
      JObj(map[
        "status" := JStr("ok"),
        "server" := JStr("mcp-http-wrapper"),
        "timestamp" := JStr(timestamp),
        "mcp_server_running" := JBool(manager.process.Some?)
      ])
    }

    /** `handle_mcp_message` on a request whose body parsed to `parsed` (or
      failed to parse with the given error text): the child's reply when
      the exchange succeeds, else the error envelope of the exception. The
      exchange is attempted only on a parsed body. */
    method HandleMessage(parsed: Result<Json, string>) returns (reply: HttpReply, ghost outcome: Option<Result<Json, SendError>>)
      requires Valid()
      modifies manager
      ensures Valid()
      ensures parsed.Err? ==> outcome == None && reply == FailureReply(None, parsed.error) && unchanged(manager)
      ensures parsed.Ok? ==> outcome.Some? && manager.Sent(parsed.value, false, outcome.value)
      ensures parsed.Ok? && outcome.Some? && outcome.value.Ok? ==> reply == JsonReply(outcome.value.value)
      ensures parsed.Ok? && outcome.Some? && outcome.value.Err? ==>
                reply == FailureReply(Some(parsed.value), ErrorText(outcome.value.error))
    {
      if parsed.Err? {
        return FailureReply(None, parsed.error), None;
      }
      var r := manager.SendMessage(parsed.value, false);
      outcome := Some(r);
      if r.Ok? {
        reply := JsonReply(r.value);
      } else {
        reply := FailureReply(Some(parsed.value), ErrorText(r.error));
      }
    }

    /** `event_stream` for a stream with id `connectionId`: register, yield
      the connection event, ask the child for its tools, then yield the rest
      of the stream; the consumer may close the stream at any yield, and the
      client may go away while the tools request waits (`toolsCancelled`),
      which cancels the stream there. Whatever the end, the `finally`
      removes the stream's entry and no other. `yielded` is what the client
      receives; `registry` is the registry as it is at each yield; `reply`
      is the outcome of the tools request, None when the stream was closed
      before sending it. */
    method EventStream(connectionId: string, entry: Registration, toolsCancelled: bool, heartbeats: nat,
                       closedAfter: Option<nat>, clock: nat -> string)
      returns (yielded: seq<string>, reply: Option<Result<Json, SendError>>, ghost registry: seq<map<string, Registration>>)
      requires Valid()
      modifies this, manager
      ensures Valid()
      ensures connections == old(connections) - {connectionId}
      ensures |registry| == |yielded| >= 1
      ensures forall k :: 0 <= k < |registry| ==> registry[k] == old(connections)[connectionId := entry]
      ensures yielded == SseFrames(manager.codec, StreamDelivered(connectionId, reply, heartbeats, closedAfter, clock))
      ensures reply.None? <==> closedAfter == Some(0)
      ensures reply.None? ==> unchanged(manager)
      ensures reply.Some? ==> manager.Sent(StreamToolsRequest(), toolsCancelled, reply.value)
    {
      var c := manager.codec;
      connections := connections[connectionId := entry];
      yielded := [SseFrame(c, ConnectionEvent(connectionId))];
      registry := [connections];
      reply := None;
      if closedAfter == Some(0) {
        StreamShape(connectionId, reply, heartbeats, clock);
        assert Delivered(StreamEvents(connectionId, reply, heartbeats, clock), closedAfter) == [ConnectionEvent(connectionId)];
      } else {
        var r := manager.SendMessage(StreamToolsRequest(), toolsCancelled);
        reply := Some(r);
        if r != Err(Cancelled) {
          var more;
          ghost var seen;
          more, seen := RestOfStream(connectionId, reply, heartbeats, closedAfter, clock, yielded);
          yielded, registry := more, registry + seen;
        }
      }
      Unregister(connectionId);
    }

    /** The `finally` of `event_stream`. */
    method Unregister(connectionId: string)
      modifies this
      ensures connections == old(connections) - {connectionId}
    {
      if connectionId in connections {
        connections := connections - {connectionId};
      }
    }

    /** The part of `event_stream` after the tools request, continuing from
      the frames `sofar` the stream has yielded (its connection event): the
      tools event when the reply lists tools, then a heartbeat for every poll
      that finds the client connected, stopping early when the consumer
      closes the stream. The client receives exactly the delivered events,
      and `registry` is the registry at each of these further yields. */
    method RestOfStream(id: string, reply: Option<Result<Json, SendError>>, heartbeats: nat,
                        closedAfter: Option<nat>, clock: nat -> string, sofar: seq<string>)
      returns (yielded: seq<string>, ghost registry: seq<map<string, Registration>>)
      requires closedAfter != Some(0)
      requires sofar == [SseFrame(manager.codec, ConnectionEvent(id))]
      ensures yielded == SseFrames(manager.codec, Delivered(StreamEvents(id, reply, heartbeats, clock), closedAfter))
      ensures |registry| == |yielded| - 1
      ensures forall k :: 0 <= k < |registry| ==> registry[k] == connections
    {
      var c := manager.codec;
      var tools := ToolsEventOf(reply);
      var closed := false;
      ghost var head: seq<Event> := [ConnectionEvent(id)];
      var before := 1;
      yielded, registry := sofar, [];
      if tools.Some? {
        head := head + [ToolsEvent(tools.value)];
        before := 2;
        yielded := yielded + [SseFrame(c, ToolsEvent(tools.value))];
        registry := registry + [connections];
        closed := closedAfter == Some(1);
      }
      assert StreamEvents(id, reply, heartbeats, clock) == head + Heartbeats(heartbeats, clock);
      ghost var events := head;
      assert events == head + Heartbeats(0, clock);
      var j := 0;
      while j < heartbeats && !closed
        invariant j <= heartbeats && before == |head|
        invariant events == head + Heartbeats(j, clock)
        invariant yielded == SseFrames(c, events)
        invariant |registry| == |yielded| - 1
        invariant forall k :: 0 <= k < |registry| ==> registry[k] == connections
        invariant closed ==> closedAfter == Some(|head| + j - 1)
        invariant !closed ==> closedAfter.None? || closedAfter.value >= |head| + j
      {
        var e := HeartbeatEvent(clock(j));
        HeartbeatsStep(head, j, clock);
        SseFramesSnoc(c, events, e);
        events := events + [e];
        yielded := yielded + [SseFrame(c, e)];
        registry := registry + [connections];
        closed := closedAfter == Some(before + j);
        j := j + 1;
      }
      StreamPrefix(head, heartbeats, j, clock, closed, closedAfter);
    }
  }

  lemma SseFramesSnoc(c: Codec, events: seq<Event>, e: Event)
    ensures SseFrames(c, events + [e]) == SseFrames(c, events) + [SseFrame(c, e)]
  {
  }

  lemma HeartbeatsStep(head: seq<Event>, j: nat, clock: nat -> string)
    ensures head + Heartbeats(j + 1, clock) == (head + Heartbeats(j, clock)) + [HeartbeatEvent(clock(j))]
  {
    assert Heartbeats(j + 1, clock) == Heartbeats(j, clock) + [HeartbeatEvent(clock(j))];
  }

  /** Where the heartbeat loop stops, the events yielded are those the
      client receives. */
  lemma StreamPrefix(head: seq<Event>, heartbeats: nat, j: nat, clock: nat -> string,
                     closed: bool, closedAfter: Option<nat>)
    requires j <= heartbeats
    requires j < heartbeats ==> closed
    requires closed ==> closedAfter == Some(|head| + j - 1)
    requires !closed ==> closedAfter.None? || closedAfter.value >= |head| + j
    ensures head + Heartbeats(j, clock) == Delivered(head + Heartbeats(heartbeats, clock), closedAfter)
  {
    var full := head + Heartbeats(heartbeats, clock);
    assert (head + Heartbeats(j, clock)) == full[..|head| + j];
  }

  /** Registering a stream adds one entry unless its id is already listed,
      in which case that entry is replaced. */
  lemma RegisterCount(before: map<string, Registration>, id: string, entry: Registration)
    ensures |before[id := entry]| == if id in before then |before| else |before| + 1
  {
  }

  /** The `finally` takes one entry away when the id is listed and none
      otherwise, so `/status` counts the stream while it runs and not after. */
  lemma UnregisterCount(during: map<string, Registration>, id: string)
    ensures |during - {id}| == if id in during then |during| - 1 else |during|
  {
    var others := (during - {id}).Keys;
    if id in during {
      assert during.Keys == others + {id};
    } else {
      assert during - {id} == during;
    }
  }
}
