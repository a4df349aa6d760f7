/** The newline-delimited JSON channel over the child's standard input and
    output that both `send_message` implementations use: a message is written
    as its JSON encoding followed by one line break, and the reply is the next
    line read back, stripped and decoded. Replies are not matched to requests
    by id: whatever line comes next is the reply. */
module Channel {
  import opened Json

  /** The exceptions `send_message` raises, by the text `str(e)` gives. */
  datatype SendError =
    | NotRunning                 // the guard at the top of send_message
    | Timeout                    // no line within the read timeout
    | NoResponse                 // readline() returned the empty line: end of stream
    | Malformed(reason: string)  // json.loads raised on the line
    | NoReader                   // stdout is None, so readline() raised AttributeError
    | Cancelled                  // the awaiting task was cancelled while no line had arrived

  /** `str(e)` for each error. */
  function ErrorText(e: SendError): string
  {
    match e
    case NotRunning => "MCP server not running"
    case Timeout => "MCP server timeout"
    case NoResponse => "No response from MCP server"
    case Malformed(reason) => reason
    case NoReader => "'NoneType' object has no attribute 'readline'"
    case Cancelled => ""
  }

  /** `json.dumps(message) + "\n"`: what one message puts on the child's stdin. */
  function Frame(c: Codec, message: Json): string
  {
    c.dumps(message) + "\n"
  }

  /** The frames of a sequence of messages, in order. */
  function Frames(c: Codec, messages: seq<Json>): seq<string>
  {
    seq(|messages|, k requires 0 <= k < |messages| => Frame(c, messages[k]))
  }

  /** The byte stream a sequence of writes produces. */
  function Concat(writes: seq<string>): (s: string)
    ensures writes == [] ==> s == []
  {
    if writes == [] then [] else writes[0] + Concat(writes[1..])
  }

  /** Index of the first line break of `s`, or `|s|` when it has none. */
  function LineEnd(s: string): (k: nat)
    ensures k <= |s|
    ensures forall i :: 0 <= i < k ==> s[i] != '\n'
    ensures k < |s| ==> s[k] == '\n'
  {
    if s == [] || s[0] == '\n' then 0 else 1 + LineEnd(s[1..])
  }

  /** The lines a reader of the stream `s` gets, each without its line break;
      an unterminated last piece is a line of its own. */
  function SplitLines(s: string): seq<string>
    decreases |s|
  {
    if s == [] then []
    else
      var k := LineEnd(s);
      if k == |s| then [s] else [s[..k]] + SplitLines(s[k + 1..])
  }

  lemma {:induction false} LineEndOfLine(line: string, rest: string)
    requires '\n' !in line
    ensures LineEnd(line + "\n" + rest) == |line|
    decreases |line|
  {
    if line != [] {
      assert (line + "\n" + rest)[1..] == line[1..] + "\n" + rest;
      LineEndOfLine(line[1..], rest);
    }
  }

  /** A reader of a line followed by more text reads that line first. */
  lemma {:induction false} SplitFirstLine(line: string, rest: string)
    requires '\n' !in line
    ensures SplitLines(line + "\n" + rest) == [line] + SplitLines(rest)
  {
    var s := line + "\n" + rest;
    LineEndOfLine(line, rest);
    assert s[..|line|] == line;
    assert s[|line| + 1..] == rest;
  }

  /** The child, reading its stdin line by line, reads the encodings of
      exactly the messages written to it, in the order they were written:
      no message is split, merged with its neighbour, or lost. */
  lemma {:induction false} ChildReadsMessages(c: Codec, messages: seq<Json>)
    requires ValidCodec(c)
    ensures |SplitLines(Concat(Frames(c, messages)))| == |messages|
    ensures forall k :: 0 <= k < |messages| ==>
              c.loads(SplitLines(Concat(Frames(c, messages)))[k]) == Ok(messages[k])
  {
    if messages != [] {
      var tail := messages[1..];
      var rest := Concat(Frames(c, tail));
      assert Frames(c, messages)[1..] == Frames(c, tail);
      assert Concat(Frames(c, messages)) == Frame(c, messages[0]) + rest;
      FrameLines(c, messages[0], rest);
      ChildReadsMessages(c, tail);
      DecodesToCons(c, c.dumps(messages[0]), SplitLines(rest), messages[0], tail);
      assert [messages[0]] + tail == messages;
    }
  }

  /** The lines of one frame followed by more of the stream. */
  lemma FrameLines(c: Codec, v: Json, rest: string)
    requires ValidCodec(c)
    ensures SplitLines(Frame(c, v) + rest) == [c.dumps(v)] + SplitLines(rest)
    ensures c.loads(c.dumps(v)) == Ok(v)
  {
    assert RoundTrips(c, v);
    assert Frame(c, v) + rest == c.dumps(v) + "\n" + rest;
    SplitFirstLine(c.dumps(v), rest);
  }

  lemma DecodesToCons(c: Codec, line: string, more: seq<string>, v: Json, tail: seq<Json>)
    requires c.loads(line) == Ok(v)
    requires |more| == |tail| && forall k :: 0 <= k < |tail| ==> c.loads(more[k]) == Ok(tail[k])
    ensures var lines, vs := [line] + more, [v] + tail;
            |lines| == |vs| && forall k :: 0 <= k < |vs| ==> c.loads(lines[k]) == Ok(vs[k])
  {
    var lines, vs := [line] + more, [v] + tail;
    forall k | 0 <= k < |vs|
      ensures c.loads(lines[k]) == Ok(vs[k])
    {
      if k > 0 {
        assert lines[k] == more[k - 1] && vs[k] == tail[k - 1];
      }
    }
  }

  lemma FramesSnoc(c: Codec, messages: seq<Json>, m: Json)
    ensures Frames(c, messages + [m]) == Frames(c, messages) + [Frame(c, m)]
  {
  }

  lemma {:induction false} ConcatSnoc(writes: seq<string>, w: string)
    ensures Concat(writes + [w]) == Concat(writes) + w
  {
    if writes != [] {
      assert (writes + [w])[1..] == writes[1..] + [w];
      ConcatSnoc(writes[1..], w);
    }
  }

  /** Each send appends exactly its frame to the byte stream the child
      reads: nothing before it is changed, and nothing else is added. */
  lemma StdinGrowsByOneFrame(c: Codec, messages: seq<Json>, m: Json)
    ensures Concat(Frames(c, messages + [m])) == Concat(Frames(c, messages)) + c.dumps(m) + "\n"
  {
    FramesSnoc(c, messages, m);
    ConcatSnoc(Frames(c, messages), Frame(c, m));
  }

  /** `readline()` on the child's stdout, whose unread lines are `q`: the
      next line and what is left, or the empty line at end of stream. */
  function ReadLine(q: seq<string>): (string, seq<string>)
  {
    if q == [] then ("", []) else (q[0], q[1..])
  }

  /** What send_message makes of the line it read: the empty line is
      NoResponse; any other line is stripped and decoded. */
  function Decode(c: Codec, line: string): (r: Result<Json, SendError>)
    ensures r == Err(NoResponse) <==> line == ""
    ensures r.Ok? <==> line != "" && c.loads(Strip(line)).Ok?
    ensures r.Ok? ==> c.loads(Strip(line)) == Ok(r.value)
  {
    if line == "" then Err(NoResponse)
    else
      match c.loads(Strip(line))
      case Ok(v) => Ok(v)
      case Err(why) => Err(Malformed(why))
  }

  /** The read half of send_message on the unread lines `q`: on a timeout
      nothing is consumed; otherwise one line is read and decoded. The reply
      is the next line, whatever request it answers. */
  function Exchange(c: Codec, q: seq<string>, timedOut: bool): (r: (Result<Json, SendError>, seq<string>))
  {
    if timedOut then (Err(Timeout), q)
    else
      var (line, rest) := ReadLine(q);
      (Decode(c, line), rest)
  }

  /** A reply the child writes the way this side writes its requests decodes
      to the value it encodes. */
  lemma FrameDecodes(c: Codec, v: Json)
    requires ValidCodec(c)
    ensures Decode(c, Frame(c, v)) == Ok(v)
  {
    assert RoundTrips(c, v);
    assert IsSpace('\n');
    StripLine(c.dumps(v), "\n");
  }

  /** Reading a reply line the child wrote as a frame yields its value and
      consumes exactly that line. */
  lemma ReadsFrame(c: Codec, v: Json, more: seq<string>)
    requires ValidCodec(c)
    ensures Exchange(c, [Frame(c, v)] + more, false) == (Ok(v), more)
  {
    var q := [Frame(c, v)] + more;
    FrameDecodes(c, v);
    assert q[0] == Frame(c, v) && q[1..] == more;
  }

  /** Without correlation by id, a reply that arrives after its request timed
      out is taken by the next exchange, as that exchange's reply. */
  lemma StaleReply(c: Codec, late: Json, more: seq<string>)
    requires ValidCodec(c)
    ensures Exchange(c, [Frame(c, late)] + more, true) == (Err(Timeout), [Frame(c, late)] + more)
    ensures Exchange(c, [Frame(c, late)] + more, false) == (Ok(late), more)
  {
    ReadsFrame(c, late, more);
  }
}
