/** Server-sent event framing. The backend writes each event as
    `event: <name>\ndata: <json>\n\n` and keeps idle connections alive with a
    comment chunk `: heartbeat\n\n`. The consumer below follows the
    event-stream interpretation of section 9.2.6 of the WHATWG HTML Living
    Standard (lines end at CRLF, LF or CR; a blank line dispatches; a line
    starting with a colon is a comment; the first colon splits field from
    value and one leading space of the value is dropped), so that the
    encoder can be checked against it. */
module ServerSentEvents {
  import opened Util

  predicate IsBreak(c: char) {
    c == '\n' || c == '\r'
  }

  /** Text that fits on one line of the stream. `json.dumps` and the event
      model's JSON serialiser never emit a raw line break. */
  type Line = s: string | forall i | 0 <= i < |s| :: !IsBreak(s[i])

  const HeartbeatComment: Line := ": heartbeat"
  const EventPrefix: Line := "event: "
  const DataPrefix: Line := "data: "

  // ----------------------------------------------------------------- encoder

  /** One frame: `event: <name>\ndata: <json>\n\n`. */
  function Frame(name: Line, json: Line): string {
    EventPrefix + name + "\n" + DataPrefix + json + "\n" + "\n"
  }

  /** The keep-alive chunk: a comment line and a blank line. */
  function Heartbeat(): string {
    HeartbeatComment + "\n" + "\n"
  }

  /** What the server writes on one turn of a stream loop. */
  datatype Chunk = EventChunk(name: Line, json: Line) | HeartbeatChunk

  function ChunkText(c: Chunk): string {
    match c
    case EventChunk(n, j) => Frame(n, j)
    case HeartbeatChunk => Heartbeat()
  }

  function Render(cs: seq<Chunk>): string
    decreases |cs|
  {
    if |cs| == 0 then "" else ChunkText(cs[0]) + Render(cs[1..])
  }

  // ---------------------------------------------------------------- consumer

  /** What a client sees for one dispatched event: its type and its data. */
  datatype Dispatched = Dispatched(eventType: string, data: string)

  /** The event type and data buffers of the interpretation algorithm. The
      last-event-id and reconnection-time fields are not modelled: the
      backend never writes `id:` or `retry:` lines. */
  datatype ParserState = ParserState(eventType: string, data: string)

  const Initial := ParserState("", "")

  /** The index of the first character satisfying `p`. */
  function FirstWhere(s: string, p: char -> bool): (r: Option<nat>)
    ensures r.Some? ==> r.value < |s| && p(s[r.value]) && forall j :: 0 <= j < r.value ==> !p(s[j])
    ensures r.None? ==> forall j :: 0 <= j < |s| ==> !p(s[j])
    decreases |s|
  {
    if |s| == 0 then None
    else if p(s[0]) then Some(0)
    else
      var r := FirstWhere(s[1..], p);
      if r.Some? then Some(r.value + 1) else None
  }

  /** The characterisation above pins the result down. */
  lemma FirstWhereIs(s: string, p: char -> bool, k: nat)
    requires k < |s| && p(s[k]) && forall j :: 0 <= j < k ==> !p(s[j])
    ensures FirstWhere(s, p) == Some(k)
  {
  }

  /** The complete lines of a stream; text after the last line break is an
      unfinished line and is not interpreted. */
  function SplitLines(s: string): (r: seq<string>)
    decreases |s|
  {
    match FirstWhere(s, IsBreak)
    case None => []
    case Some(i) =>
      var next := if s[i] == '\r' && i + 1 < |s| && s[i + 1] == '\n' then i + 2 else i + 1;
      [s[..i]] + SplitLines(s[next..])
  }

  /** A line followed by LF is split off whole, whatever follows. */
  lemma SplitLinesCons(line: Line, rest: string)
    ensures SplitLines(line + "\n" + rest) == [line] + SplitLines(rest)
  {
    var s := line + "\n" + rest;
    assert s[|line|] == '\n';
    forall j | 0 <= j < |line| ensures !IsBreak(s[j]) {
      assert s[j] == line[j];
    }
    FirstWhereIs(s, IsBreak, |line|);
    assert s[..|line|] == line;
    assert s[|line| + 1..] == rest;
  }

  /** Field name and value of a non-comment line: split at the first colon,
      dropping one space after it; a line without a colon is all name. */
  function SplitField(line: string): (string, string) {
    match FirstWhere(line, c => c == ':')
    case None => (line, "")
    case Some(i) =>
      var v := line[i + 1..];
      (line[..i], if |v| > 0 && v[0] == ' ' then v[1..] else v)
  }

  /** Drop one trailing LF from the data buffer. */
  function DropFinalLF(d: string): string {
    if |d| > 0 && d[|d| - 1] == '\n' then d[..|d| - 1] else d
  }

  /** Interpret one line. */
  function Step(st: ParserState, line: string): (ParserState, seq<Dispatched>) {
    if line == "" then
      if st.data == "" then (Initial, [])
      else (Initial, [Dispatched(if st.eventType == "" then "message" else st.eventType, DropFinalLF(st.data))])
    else if line[0] == ':' then (st, [])
    else
      var (name, value) := SplitField(line);
      if name == "event" then (st.(eventType := value), [])
      else if name == "data" then (st.(data := st.data + value + "\n"), [])
      else (st, [])
  }

  function Consume(st: ParserState, lines: seq<string>): seq<Dispatched>
    decreases |lines|
  {
    if |lines| == 0 then []
    else
      var (next, out) := Step(st, lines[0]);
      out + Consume(next, lines[1..])
  }

  /** Everything a client dispatches from the whole stream text. */
  function Parse(s: string): seq<Dispatched> {
    Consume(Initial, SplitLines(s))
  }

  // ------------------------------------------------------------- round trip

  /** The events a client should see for a run of chunks: one per event
      frame, in order, typed by the frame's name (`message` when the name is
      empty), carrying the JSON text unchanged; heartbeats yield nothing. */
  function Expected(cs: seq<Chunk>): seq<Dispatched>
    decreases |cs|
  {
    if |cs| == 0 then []
    else
      match cs[0]
      case EventChunk(n, j) => [Dispatched(if n == "" then "message" else n, j)] + Expected(cs[1..])
      case HeartbeatChunk => Expected(cs[1..])
  }

  function ChunkLines(c: Chunk): seq<string> {
    match c
    case EventChunk(n, j) => [EventPrefix + n, DataPrefix + j, ""]
    case HeartbeatChunk => [HeartbeatComment, ""]
  }

  function LinesOf(cs: seq<Chunk>): seq<string>
    decreases |cs|
  {
    if |cs| == 0 then [] else ChunkLines(cs[0]) + LinesOf(cs[1..])
  }

  lemma PrefixedLine(prefix: Line, x: Line)
    ensures forall i | 0 <= i < |prefix + x| :: !IsBreak((prefix + x)[i])
  {
    forall i | 0 <= i < |prefix + x| ensures !IsBreak((prefix + x)[i]) {
      if i < |prefix| {
        assert (prefix + x)[i] == prefix[i];
      } else {
        assert (prefix + x)[i] == x[i - |prefix|];
      }
    }
  }

  /** A frame's text splits into its three lines, then the rest. */
  lemma SplitFrame(n: Line, j: Line, rest: string)
    ensures SplitLines(Frame(n, j) + rest) == ChunkLines(EventChunk(n, j)) + SplitLines(rest)
  {
    PrefixedLine(EventPrefix, n);
    PrefixedLine(DataPrefix, j);
    var l1: Line := EventPrefix + n;
    var l2: Line := DataPrefix + j;
    var e: Line := "";
    assert Frame(n, j) + rest == l1 + "\n" + (l2 + "\n" + (e + "\n" + rest));
    SplitLinesCons(l1, l2 + "\n" + (e + "\n" + rest));
    SplitLinesCons(l2, e + "\n" + rest);
    SplitLinesCons(e, rest);
  }

  /** A heartbeat's text splits into the comment and a blank line. */
  lemma SplitHeartbeat(rest: string)
    ensures SplitLines(Heartbeat() + rest) == ChunkLines(HeartbeatChunk) + SplitLines(rest)
  {
    var e: Line := "";
    assert Heartbeat() + rest == HeartbeatComment + "\n" + (e + "\n" + rest);
    SplitLinesCons(HeartbeatComment, e + "\n" + rest);
    SplitLinesCons(e, rest);
  }

  /** A chunk's text splits into exactly its lines, then the rest. */
  lemma SplitChunk(c: Chunk, rest: string)
    ensures SplitLines(ChunkText(c) + rest) == ChunkLines(c) + SplitLines(rest)
  {
    match c
    case EventChunk(n, j) => SplitFrame(n, j, rest);
    case HeartbeatChunk => SplitHeartbeat(rest);
  }

  lemma {:induction false} SplitRender(cs: seq<Chunk>)
    ensures SplitLines(Render(cs)) == LinesOf(cs)
    decreases |cs|
  {
    if |cs| == 0 {
      assert FirstWhere("", IsBreak).None?;
    } else {
      SplitChunk(cs[0], Render(cs[1..]));
      SplitRender(cs[1..]);
    }
  }

  lemma ConsumeAppend(st: ParserState, a: seq<string>, b: seq<string>)
    requires |a| > 0
    ensures Consume(st, a + b) == Step(st, a[0]).1 + Consume(Step(st, a[0]).0, a[1..] + b)
  {
    assert (a + b)[0] == a[0];
    assert (a + b)[1..] == a[1..] + b;
  }

  /** `event: <n>` sets the event type buffer to `n`. */
  lemma EventLine(st: ParserState, n: Line)
    ensures Step(st, EventPrefix + n) == (st.(eventType := n), [])
  {
    var line := EventPrefix + n;
    FirstWhereIs(line, c => c == ':', 5);
    assert line[..5] == "event";
    assert line[6..] == " " + n;
    assert (" " + n)[1..] == n;
  }

  /** `data: <j>` appends `j` and a LF to the data buffer. */
  lemma DataLine(st: ParserState, j: Line)
    ensures Step(st, DataPrefix + j) == (st.(data := st.data + j + "\n"), [])
  {
    var line := DataPrefix + j;
    FirstWhereIs(line, c => c == ':', 4);
    assert line[..4] == "data";
    assert line[5..] == " " + j;
    assert (" " + j)[1..] == j;
  }

  /** From a clean state a frame's lines dispatch its one event and leave
      the state clean again. */
  lemma ConsumeFrame(n: Line, j: Line, rest: seq<string>)
    ensures Consume(Initial, ChunkLines(EventChunk(n, j)) + rest)
         == [Dispatched(if n == "" then "message" else n, j)] + Consume(Initial, rest)
  {
    var ls := ChunkLines(EventChunk(n, j));
    var st1 := ParserState(n, "");
    var st2 := ParserState(n, j + "\n");
    EventLine(Initial, n);
    DataLine(st1, j);
    assert st1.(data := st1.data + j + "\n") == st2;
    assert DropFinalLF(st2.data) == j;
    assert Step(st2, "") == (Initial, [Dispatched(if n == "" then "message" else n, j)]);
    ConsumeAppend(Initial, ls, rest);
    ConsumeAppend(st1, ls[1..], rest);
    ConsumeAppend(st2, ls[2..], rest);
    assert ls[2..][1..] + rest == rest;
  }

  /** A heartbeat's lines dispatch nothing from a clean state. */
  lemma ConsumeHeartbeat(rest: seq<string>)
    ensures Consume(Initial, ChunkLines(HeartbeatChunk) + rest) == Consume(Initial, rest)
  {
    var ls := ChunkLines(HeartbeatChunk);
    ConsumeAppend(Initial, ls, rest);
    ConsumeAppend(Initial, ls[1..], rest);
    assert ls[2..] + rest == rest;
  }

  lemma ConsumeChunk(c: Chunk, rest: seq<string>)
    ensures Consume(Initial, ChunkLines(c) + rest) == Expected([c]) + Consume(Initial, rest)
  {
    assert [c][1..] == [];
    match c
    case EventChunk(n, j) =>
      ConsumeFrame(n, j, rest);
      assert Expected([c]) == [Dispatched(if n == "" then "message" else n, j)];
    case HeartbeatChunk =>
      ConsumeHeartbeat(rest);
      assert Expected([c]) == [];
  }

  lemma {:induction false} ConsumeLinesOf(cs: seq<Chunk>)
    ensures Consume(Initial, LinesOf(cs)) == Expected(cs)
    decreases |cs|
  {
    if |cs| > 0 {
      ConsumeChunk(cs[0], LinesOf(cs[1..]));
      ConsumeLinesOf(cs[1..]);
      match cs[0]
      case EventChunk(_, _) =>
      case HeartbeatChunk =>
    }
  }

  /** Any run of frames and heartbeats decodes, at a conforming client, to
      exactly the framed events in order with their JSON unchanged; the
      heartbeats are invisible. */
  lemma StreamRoundTrip(cs: seq<Chunk>)
    ensures Parse(Render(cs)) == Expected(cs)
  {
    SplitRender(cs);
    ConsumeLinesOf(cs);
  }

  /** A single frame is one event. */
  lemma FrameRoundTrip(name: Line, json: Line)
    requires name != ""
    ensures Parse(Frame(name, json)) == [Dispatched(name, json)]
  {
    SplitFrame(name, json, "");
    ConsumeFrame(name, json, []);
    assert Frame(name, json) + "" == Frame(name, json);
    assert ChunkLines(EventChunk(name, json)) + [] == ChunkLines(EventChunk(name, json));
  }

  /** A heartbeat alone dispatches nothing. */
  lemma HeartbeatIsSilent()
    ensures Parse(Heartbeat()) == []
  {
    SplitHeartbeat("");
    ConsumeHeartbeat([]);
    assert Heartbeat() + "" == Heartbeat();
    assert ChunkLines(HeartbeatChunk) + [] == ChunkLines(HeartbeatChunk);
  }
}
