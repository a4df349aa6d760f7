# MCP process bridge: a Dafny model

The repository wraps a local MCP (Model Context Protocol) server, a child
process that speaks newline-delimited JSON-RPC on stdin and stdout, so that
remote clients can reach it over HTTP. This project models the sequential
state logic of the two wrappers and proves properties of the model:

- **REST/WebSocket wrapper** (`mcp_http_wrapper_fixed.py`):
  - `MCPServerManager` starts the child and runs the MCP handshake
    (`initialize`, then `tools/list`), which fills the tool cache.
  - It forwards requests one line at a time, with a 30-second read timeout.
  - It stops the child with terminate, escalating to kill after a 5-second
    grace period.
  - `ConnectionManager` keeps the list of live WebSockets and prunes it
    during `broadcast`.
- **SSE wrapper** (`mcp_wrapper_fixed.py`):
  - A simpler `MCPServerManager`, with no running flag and no timeout.
  - The registry of open SSE streams (`mcp_connections`).
  - The event sequence one stream yields.
  - The error envelope of the POST handler.
  - The `/status` and `/health` reports.

Modules, one per file:

- `Json` (json.dfy):
  - JSON values. Numbers are integers and Python floats; a float is a
    finite binary number mantissa·2^exponent in reduced form, negative
    zero, an infinity or NaN.
  - Python's `in`, `[...]`, `.get` and `str.strip` on those values, with
    their exceptions.
  - The encoder and decoder as an opaque `Codec`. The only thing assumed of
    it is the law `ValidCodec`: an encoding has no raw line break, no
    whitespace at either end, and decodes back to its value.
- `JsonCodec` (json_codec.dfy): a concrete encoder and decoder that meet
  `ValidCodec`. They show that the law can be met, so the lemmas that
  assume it are about codecs that exist.
- `Subprocess` (subprocess.dfy): a child handle and the calls made on it.
  The outcome of a launch is an input.
- `Channel` (channel.dfy):
  - The line channel. A message is written as its encoding plus one `"\n"`,
    and the reply is the next line read, stripped and decoded.
  - The child's stdout is a queue of lines fixed at launch, and end of
    stream is the empty queue.
  - Replies are **not** matched to requests by id. The model has no
    pending-call table.
- `HttpManager` (http_manager.dfy): the REST wrapper's `MCPServerManager`, as
  a class. Its stdin is a log of writes and its stdout is a read queue.
- `HttpConnections` (http_connections.dfy): `ConnectionManager`, as a class
  over a `seq` of sockets.
  - `Broadcast` follows the source's index-based walk over the list it
    removes from.
  - `BroadcastSnapshot` is the corrected loop over a copy (see Findings).
- `SseWrapper` (sse_wrapper.dfy): the SSE wrapper's manager and its global
  state (`Wrapper`), the stream, the envelope and the reports.

Things outside the program are parameters of the model:

- whether a launch succeeds, and the child's future output;
- whether each read times out;
- which WebSocket sends fail;
- how many disconnect polls find the SSE client still connected;
- where the consumer closes the stream;
- whether the SSE client goes away while the stream's tools request waits;
- the clock, and the uuid and timestamp values.

Where the code departs from what such a bridge is expected to do, the model follows the code:

- **Request and reply correlation.** No
  correlation id is checked. A reply that arrives after its request timed out
  is taken as the reply to the next request (`Channel.StaleReply`).
- **Handshake failures.** The code does not fail start on a handshake
  failure. `_initialize_mcp` swallows every exception, and start still
  returns success.
- **Broadcast.** It does not reach every subscriber: the loop skips the
  socket after each one it removes.
- **Tools event of a stream.** The tools event needs `result.tools`, not
  just `result`. A reply with `result` but no `tools` inside it raises a
  KeyError. The stream's inner `except` swallows it, and the stream yields
  no tools event.
- **Stop in the SSE wrapper.** Stop keeps the process handle. `/status` and
  `/health` go on reporting the server as running after stop.
- **Malformed POST body.** When `handle_mcp_message` fails on a body that
  parsed but is not a JSON object, `body.get` raises inside the `except`.
  The request then ends as an internal server error, not an envelope
  (`SseWrapper.FailureReply`).

## Model

| member | source | states |
|---|---|---|
| Json.PyInSpec | mcp_http_wrapper_fixed.py:138 | `key in x` raises TypeError exactly on values that are not dict, list or string; on a dict it holds exactly when `x[key]` does not raise; on a list, when some element is the string; on a string, when the key occurs at some position |
| Json.IsSubstringSpec | mcp_wrapper_fixed.py:181 | Python's `in` on strings holds exactly when the needle occurs in the haystack at some position |
| Json.SubscriptIsNested | mcp_http_wrapper_fixed.py:138-139 | `x[outer][inner]` succeeds exactly when the plain nested lookup finds a value, and then gives that value |
| Json.GetIsSubscriptOrNull | mcp_wrapper_fixed.py:231 | `x.get(key)` raises exactly where `x[key]` raises TypeError; otherwise it gives what `x[key]` gives, or null where `x[key]` raises KeyError |
| Json.StripLeft | mcp_http_wrapper_fixed.py:163 | lstrip gives the suffix left after the leading whitespace; that suffix does not start with whitespace |
| Json.StripRight | mcp_http_wrapper_fixed.py:163 | rstrip gives the prefix left before the trailing whitespace; that prefix does not end with whitespace |
| Json.StripSpec | mcp_http_wrapper_fixed.py:163 | strip gives an empty or trimmed string that is never longer than its input, and it is empty exactly when the input is all whitespace |
| Json.StripTrimmed | mcp_http_wrapper_fixed.py:163 | strip leaves a trimmed string unchanged |
| Json.StripLine | mcp_http_wrapper_fixed.py:163 | strip removes a line break and trailing whitespace after a trimmed string, and gives that string back |
| JsonCodec.ValidCodecSatisfiable | mcp_http_wrapper_fixed.py:152-164 | some encoder and decoder meet the law assumed of `json.dumps` and `json.loads`: every encoding is one line with no whitespace at either end and decodes back to its value, floats included |
| Channel.StdinGrowsByOneFrame | mcp_http_wrapper_fixed.py:152-153 | each send appends exactly its encoding plus one "\n" to the byte stream the child reads; nothing written before is changed |
| Channel.SplitFirstLine | mcp_http_wrapper_fixed.py:152 | a reader of a line that ends in "\n" followed by more text reads that line first, then the rest |
| Channel.ChildReadsMessages | mcp_http_wrapper_fixed.py:152-154 | the child, reading its stdin line by line, decodes exactly the messages written, in order: none is split, merged or lost |
| Channel.Decode | mcp_http_wrapper_fixed.py:162-166 | the reply is "No response" exactly when the line read is empty; it is a value exactly when the stripped line decodes, and then it is the decoded value |
| Channel.FrameDecodes | mcp_http_wrapper_fixed.py:152-164 | a reply line written in the same framing decodes to the value it encodes |
| Channel.ReadsFrame | mcp_http_wrapper_fixed.py:157-164 | reading a framed reply yields its value and consumes exactly that line |
| Channel.StaleReply | mcp_http_wrapper_fixed.py:157-170 | a timed-out read consumes nothing, so the late reply becomes the next request's reply (no correlation by id) |
| HttpManager.HandshakeRequestsShape | mcp_http_wrapper_fixed.py:111-135 | initialize and tools/list are JSON-RPC 2.0 requests with the given ids; initialize announces protocol 2024-11-05, and tools/list has no params |
| HttpManager.ToolCallRequest | mcp_http_wrapper_fixed.py:177-185 | a tools/call request is JSON-RPC 2.0 with the given id; params.name is the tool name and params.arguments is the caller's parameters, unchanged |
| HttpManager.CacheRule | mcp_http_wrapper_fixed.py:137-143 | the tool cache is replaced exactly when the tools/list reply is a dict whose result is a dict holding tools, and then by result.tools; every other outcome, including replies on which Python raises, keeps the old cache |
| HttpManager.HandshakeShape | mcp_http_wrapper_fixed.py:107-143 | the handshake always sends initialize; it sends tools/list exactly when initialize got a reply; without that, the cache is unchanged |
| HttpManager.HandshakeCachesListedTools | mcp_http_wrapper_fixed.py:127-139 | when the child answers both requests in time, the cache becomes exactly the second reply's result.tools, and both lines are consumed |
| HttpManager.Stopped | mcp_http_wrapper_fixed.py:189-198 | stop calls terminate, then a wait of at most 5 s; it calls kill exactly when that wait times out, and then waits without bound; the child has exited at the end |
| HttpManager.ServerManager.constructor | mcp_http_wrapper_fixed.py:60-66 | no process, no pipes, not running, empty tool cache |
| HttpManager.ServerManager.SendMessage | mcp_http_wrapper_fixed.py:145-173 | when not running or a pipe is missing: "not running", nothing written or read; otherwise one frame is appended to stdin, and the reply is the next line (or Timeout with nothing consumed); flag, process and cache are unchanged |
| HttpManager.ServerManager.CallTool | mcp_http_wrapper_fixed.py:175-187 | one send of the tools/call request for the tool and parameters, with the guard and reply of SendMessage |
| HttpManager.ServerManager.Initialize | mcp_http_wrapper_fixed.py:107-143 | when not ready, nothing changes (the error is swallowed); otherwise stdin gains exactly the handshake's frames, stdout and the cache end as the handshake leaves them, and the flag and process are unchanged |
| HttpManager.ServerManager.ListTools | mcp_http_wrapper_fixed.py:131-143 | when the manager is not ready, nothing is written, read or cached; otherwise one tools/list frame is written, stdout is left as the exchange leaves it (the next line consumed when the read does not time out, nothing consumed when it does), and the cache follows the update rule |
| HttpManager.ServerManager.Start | mcp_http_wrapper_fixed.py:68-105 | the result and the running flag are true exactly when the launch succeeded, whatever the handshake did; a failed launch leaves process, pipes and cache as they were; a successful one has fresh pipes carrying the handshake |
| HttpManager.ServerManager.Stop | mcp_http_wrapper_fixed.py:189-198 | afterwards the manager is not running; with no process nothing else changes; otherwise the child is stopped with escalation; pipes and cache are unchanged |
| HttpManager.ChildSeesToolCall | mcp_http_wrapper_fixed.py:175-187 | the line the child reads for a tool call decodes to a tools/call request whose params.arguments are the caller's parameters |
| HttpConnections.RemoveFirst | mcp_http_wrapper_fixed.py:213-216 | removal shortens the list by one when the socket is listed, and is the identity otherwise |
| HttpConnections.RemoveFirstTakesOne | mcp_http_wrapper_fixed.py:214-215 | removal takes away exactly one entry of the socket and nothing else (as multisets) |
| HttpConnections.SweepRemovesFailed | mcp_http_wrapper_fixed.py:218-223 | the walk of broadcast as written removes exactly one entry per failed visit, and nothing else |
| HttpConnections.SweepNeverAdds | mcp_http_wrapper_fixed.py:218-223 | broadcast never adds an entry |
| HttpConnections.SweepKeepsHealthy | mcp_http_wrapper_fixed.py:218-223 | broadcast never removes an entry of a socket whose send succeeds |
| HttpConnections.SkipsSocketAfterRemoved | mcp_http_wrapper_fixed.py:219-223 | with [a, b] and the send to a failing, a is removed and b is never tried |
| HttpConnections.SurvivingExactly | mcp_http_wrapper_fixed.py:218-223 | after the corrected broadcast, a socket is listed exactly when it was listed and its send succeeds |
| HttpConnections.ConnectionManager.constructor | mcp_http_wrapper_fixed.py:205-206 | no connections |
| HttpConnections.ConnectionManager.Connect | mcp_http_wrapper_fixed.py:208-211 | exactly one entry is appended, even for a socket already listed |
| HttpConnections.ConnectionManager.Disconnect | mcp_http_wrapper_fixed.py:213-216 | the first entry of the socket is removed, or nothing when it is not listed |
| HttpConnections.ConnectionManager.Broadcast | mcp_http_wrapper_fixed.py:218-223 | the index-based loop leaves the list as the walk over the shrinking list does, and exactly the visited sockets whose send succeeded get the message |
| HttpConnections.ConnectionManager.BroadcastSnapshot | mcp_http_wrapper_fixed.py:218-223 | corrected broadcast: every listed socket is tried once; the failing ones are removed and every other one gets the message, in list order |
| SseWrapper.Stopped | mcp_wrapper_fixed.py:106-110 | stop terminates, then waits without bound; it never kills, and the child has exited at the end |
| SseWrapper.ServerManager.constructor | mcp_wrapper_fixed.py:44-48 | no process and no pipes |
| SseWrapper.ServerManager.Start | mcp_wrapper_fixed.py:50-81 | the result is true exactly when the launch succeeded; a failed launch changes nothing; a successful one holds the child with fresh pipes |
| SseWrapper.ServerManager.SendMessage | mcp_wrapper_fixed.py:83-104 | with no process or no stdin: "not running", nothing written; otherwise one frame is appended, and the reply is the next line with no timeout ("No response" at end of stream); a read cancelled before a line arrives consumes nothing, so the late reply is left for the next send |
| SseWrapper.ServerManager.Stop | mcp_wrapper_fixed.py:106-110 | with no process nothing changes; otherwise terminate then wait; the handle and pipes are kept |
| SseWrapper.StreamToolsRequest | mcp_wrapper_fixed.py:175-179 | the stream's tools/list request is JSON-RPC 2.0 with integer id 1 and no params |
| SseWrapper.PayloadRoundTrip | mcp_wrapper_fixed.py:171-193 | every event is recovered from the dict it is serialised from |
| SseWrapper.ClientReadsEvents | mcp_wrapper_fixed.py:171-193 | a client reading the stream's body line by line gets, for each event in order, one data line that decodes to that event and the blank line ending it, and nothing else |
| SseWrapper.SseFrameLines | mcp_wrapper_fixed.py:171 | one SSE frame is read as its data line and a blank line, before the rest of the body |
| SseWrapper.SseFrameDecodes | mcp_wrapper_fixed.py:171 | an SSE frame is one data line that decodes back to its event, then the blank line that ends the event |
| SseWrapper.ToolsEventRule | mcp_wrapper_fixed.py:174-185 | there is a tools event exactly when the reply is a dict whose result is a dict holding tools, and it carries result.tools; a failed request or a raising evaluation gives none |
| SseWrapper.Delivered | mcp_wrapper_fixed.py:158-202 | what a client receives is a prefix of the stream's events |
| SseWrapper.StreamShape | mcp_wrapper_fixed.py:158-194 | a stream is one connection event with the stream's id, then the tools event when there is one, then the heartbeats, and no other connection event |
| SseWrapper.DeliveredStartsWithConnection | mcp_wrapper_fixed.py:163-185 | however early the stream ends, the client has received the connection event first and a prefix of the stream; a cancelled tools request ends it right after that event |
| SseWrapper.ErrorEnvelope | mcp_wrapper_fixed.py:229-236 | the envelope is JSON-RPC 2.0 with the given id, error.code -1, error.message the exception's text, and no result |
| SseWrapper.FailureReply | mcp_wrapper_fixed.py:227-236 | an unparsed body gives id null; a parsed dict gives its id (null when absent); a parsed body that is not a dict makes the handler raise |
| SseWrapper.Wrapper.constructor | mcp_wrapper_fixed.py:37-48 | empty registry, and a manager with no process |
| SseWrapper.Wrapper.Status | mcp_wrapper_fixed.py:238-250 | active_connections is the registry size; running is reported exactly when a process is held, with its pid |
| SseWrapper.Wrapper.Health | mcp_wrapper_fixed.py:128-136 | the status is "ok" at the given time, and running is reported exactly when a process is held |
| SseWrapper.Wrapper.HandleMessage | mcp_wrapper_fixed.py:214-236 | a parsed body is forwarded once; the child's reply is returned when the exchange succeeds, else the failure reply with the error's text; an unparsed body sends nothing |
| SseWrapper.Wrapper.EventStream | mcp_wrapper_fixed.py:158-202 | the registry as it is at each yield holds the stream's entry, with nothing else changed; afterwards the entry is gone, whatever the end; the client receives exactly the frames of the delivered events; the tools request is sent exactly when the stream outlives its first yield, and a cancelled one leaves its reply unread |
| SseWrapper.Wrapper.Unregister | mcp_wrapper_fixed.py:198-202 | the finally removes the stream's entry and no other |
| SseWrapper.Wrapper.RestOfStream | mcp_wrapper_fixed.py:174-194 | after the connection event, the stream yields the frames of the tools event and the heartbeats, up to where the consumer closes it; the registry is recorded at each of those yields and is the live one |
| SseWrapper.RegisterCount | mcp_wrapper_fixed.py:163-166 | registering adds one entry, unless the id is already listed, in which case its entry is replaced |
| SseWrapper.UnregisterCount | mcp_wrapper_fixed.py:198-202 | the finally takes one entry away when the id is listed and none otherwise |

Definitions whose properties are stated by the members above, and which
carry no contract of their own:

- `Json.PyIn`, `Json.PySubscript`, `Json.PyGet` (mcp_http_wrapper_fixed.py:138-139, mcp_wrapper_fixed.py:231): Python's `in`, `[...]` and `.get`. See `Json.PyInSpec`, `Json.SubscriptIsNested` and `Json.GetIsSubscriptOrNull`.
- `Json.Strip` (mcp_http_wrapper_fixed.py:163): see `Json.StripSpec`.
- `Subprocess.Spawned` (mcp_http_wrapper_fixed.py:83-92): the child a launch starts. See the two `Start` methods.
- `Channel.Frame`, `Channel.Frames` (mcp_http_wrapper_fixed.py:152): see `Channel.StdinGrowsByOneFrame` and `Channel.ChildReadsMessages`.
- `Channel.ErrorText` (mcp_http_wrapper_fixed.py:148, 166, 170; mcp_wrapper_fixed.py:86, 100, 234): the text `str(e)` gives for each send error, which `SseWrapper.Wrapper.HandleMessage` puts into the envelope.
- `Channel.ReadLine`, `Channel.Exchange` (mcp_http_wrapper_fixed.py:157-170): see `Channel.Decode`, `Channel.ReadsFrame` and `Channel.StaleReply`.
- `HttpManager.InitializeRequest`, `HttpManager.ToolsListRequest` (mcp_http_wrapper_fixed.py:111-135): see `HttpManager.HandshakeRequestsShape`.
- `HttpManager.ToolsOfListReply`, `HttpManager.CacheAfter` (mcp_http_wrapper_fixed.py:138-139): Python's evaluation of the cache test, with its exceptions. See `HttpManager.CacheRule`.
- `HttpManager.RunHandshake` (mcp_http_wrapper_fixed.py:107-143): see `HttpManager.HandshakeShape` and `HttpManager.HandshakeCachesListedTools`.
- `HttpConnections.Sweep` (mcp_http_wrapper_fixed.py:219-223): the index walk of broadcast as written. See `HttpConnections.SweepRemovesFailed`, `HttpConnections.SweepNeverAdds`, `HttpConnections.SweepKeepsHealthy` and `HttpConnections.SkipsSocketAfterRemoved`.
- `HttpConnections.Failed`, `HttpConnections.Surviving`, `HttpConnections.Deliveries` (mcp_http_wrapper_fixed.py:218-223): see `HttpConnections.SweepRemovesFailed` and `HttpConnections.SurvivingExactly`.
- `SseWrapper.Payload`, `SseWrapper.SseFrame`, `SseWrapper.SseFrames` (mcp_wrapper_fixed.py:171, 182, 193): see `SseWrapper.PayloadRoundTrip`, `SseWrapper.SseFrameDecodes` and `SseWrapper.ClientReadsEvents`.
- `SseWrapper.ToolsEventOf` (mcp_wrapper_fixed.py:174-185): see `SseWrapper.ToolsEventRule`.
- `SseWrapper.Heartbeats`, `SseWrapper.StreamEvents`, `SseWrapper.StreamDelivered` (mcp_wrapper_fixed.py:158-202): see `SseWrapper.StreamShape` and `SseWrapper.DeliveredStartsWithConnection`.
- `JsonCodec.Enc`, `JsonCodec.Load` and the parsers they use: the concrete codec. See `JsonCodec.ValidCodecSatisfiable`.

Helper lemmas with no row are proof steps: each unfolds one definition
or one loop iteration.

## Left out

- Byte encoding and the stderr pipe (never read): strings are taken as
  already decoded.
- `drain()` is not modelled. Once the child has exited it raises
  ConnectionResetError ("Connection lost") before anything is read. The
  model instead reads end of stream and reports "No response from MCP
  server" (mcp_http_wrapper_fixed.py:166, mcp_wrapper_fixed.py:100), so
  the SSE envelope carries a different error text from the code's.
- `readline()`'s line limit is not modelled. asyncio's stream reader holds
  at most 64 KiB by default; on a longer line `readline()` raises
  ValueError and drops the part already buffered, and the rest of that
  line is read as the next reply. The model reads every line whole. So a
  large tools/list reply (mcp_http_wrapper_fixed.py:137-143) fills the
  model's cache, where the code keeps the old cache and stays out of step
  with later replies.
- The child's command line and working directory.
- Logging.
- asyncio concurrency: each operation runs to completion on its own. Two
  concurrent sends on the same pipes could interleave their writes and
  take each other's replies; the model does not cover that.
- Time: `asyncio.sleep(30)` between heartbeats, and `wait_for` timeouts,
  which are boolean outcomes.
- `uuid4()` and `datetime.now()`: the ids, the connection id and the
  timestamps are parameters. Two streams started in the same tick share an
  id; `SseWrapper.RegisterCount` states what the registry does then.
- WebSocket `accept()` in `connect`: `Connect` is the path where it
  succeeds.
- `send_text`: a send is a success or failure decided by a fixed
  predicate.
- The heartbeat loop's `while True`: the number of polls that find the
  client connected is a parameter, so every modelled stream is finite. An
  exception while yielding is the consumer closing the stream at that
  yield.
- The framework's request object kept in the registry: it is identified
  by a number.
- `len(self.tools_cache)` at mcp_http_wrapper_fixed.py:140 may raise after
  the cache was assigned. The error is swallowed, so the model's cache
  update already covers it.
- Calls on the process handle never raise in the model. asyncio's
  `terminate()` can raise `ProcessLookupError` on a child that is already
  gone, for instance on a second `stop` after a start: `stop` never
  clears `process`. So the model does not say whether a repeated stop
  raises.
- A stream whose tools request never gets an answer, because the child
  stays silent without closing stdout, and whose client stays connected,
  never ends. The model covers how such a stream ends, by cancellation
  when the client goes away (`toolsCancelled`). Until then it stays
  suspended with its registry entry present; the model does not follow
  that.
- Cancellation of a POST handler while it waits for the child:
  `SseWrapper.Wrapper.HandleMessage` is the path where the read finishes.
- Floats are not bounded to binary64's mantissa and exponent ranges, and
  NaN is equal to itself in the model, unlike Python's `nan`. No branch of
  the code depends on a number's value.
- The FastAPI routes, the startup and shutdown hooks, the manifest,
  the CORS set-up and the WebSocket endpoint are outside this model. They
  only call into the managers modelled here.
- simple_mcp_wrapper.py, simple_test_server.py and test_remote_mcp.py are
  not part of this model. They return constant dicts or do network I/O.

## Findings

| source | as written | input that shows it | evidently intended | confidence | as-written member | corrected member |
|---|---|---|---|---|---|---|
| mcp_http_wrapper_fixed.py:218-223 | `broadcast` removes a failing socket from `active_connections` while a `for` loop walks that same list, so the loop skips the socket after each removed one | the list [a, b], where the send to a fails: a is removed, and b never gets the message (if b's transport is dead too, it stays listed) | try every socket once, by iterating over a copy of the list: drop the failing ones, and deliver to every other one | not executed | HttpConnections.SkipsSocketAfterRemoved | HttpConnections.ConnectionManager.BroadcastSnapshot |
