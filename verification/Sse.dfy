/**
Server-sent events between the A2A routes and the web client: what the server prints for an event,
and the client's incremental reader. Framing is section 9.2 of the WHATWG HTML Living Standard, with
line feeds only and one `data` line per event, which is what the server writes.
*/
module Sse {
  import opened Prelude

  type Text = string

  // ----- printing --------------------------------------------------------------------------

  /** One event as the server hands it to the formatter: `data` is its JSON text. */
  datatype SseEvent = SseEvent(id: Option<nat>, kind: Text, data: Text)

  function Digits(n: nat): Text {
    var last := ['0', '1', '2', '3', '4', '5', '6', '7', '8', '9'][n % 10];
    if n < 10 then [last] else Digits(n / 10) + [last]
  }

  /** The lines of one event, without the blank line that ends it. */
  function Body(e: SseEvent): Text {
    (if e.id.Some? then "id: " + Digits(e.id.value) + "\n" else "") + "event: " + e.kind + "\n" + "data: " + e.data
  }

  /** `_format_a2a_sse_event`. */
  function Format(e: SseEvent): Text {
    Body(e) + "\n\n"
  }

  function Print(events: seq<SseEvent>): Text {
    if events == [] then "" else Format(events[0]) + Print(events[1..])
  }

  // ----- reading ---------------------------------------------------------------------------

  /** JavaScript white space and line terminators, as `trim` removes them. */
  predicate IsSpace(c: char) {
    || c in {' ', '\t', '\n', '\r', '\U{000B}', '\U{000C}', '\U{00A0}', '\U{1680}', '\U{2028}', '\U{2029}'}
    || c in {'\U{202F}', '\U{205F}', '\U{3000}', '\U{FEFF}'}
    || '\U{2000}' <= c <= '\U{200A}'
  }

  function TrimStart(s: Text): Text {
    if s != [] && IsSpace(s[0]) then TrimStart(s[1..]) else s
  }

  predicate Blank(s: Text) {
    forall i :: 0 <= i < |s| ==> IsSpace(s[i])
  }

  /** A blank line starts here. */
  predicate BreakAt(s: Text, i: nat) {
    i + 1 < |s| && s[i] == '\n' && s[i + 1] == '\n'
  }

  /** Index of the first blank-line separator, or `|s|`. */
  function FindBreak(s: Text): (i: nat)
    ensures i <= |s|
    ensures i < |s| ==> BreakAt(s, i)
    ensures forall j :: 0 <= j < i ==> !BreakAt(s, j)
  {
    if |s| < 2 then |s|
    else if BreakAt(s, 0) then 0
    else
      var i := FindBreak(s[1..]);
      assert forall j :: 1 <= j < i + 1 ==> BreakAt(s, j) == BreakAt(s[1..], j - 1);
      assert i < |s| - 1 ==> BreakAt(s[1..], i) && BreakAt(s, i + 1);
      1 + i
  }

  /** `split("\n\n")`: leftmost, non-overlapping separators. */
  function SplitFrames(s: Text): (r: seq<Text>)
    ensures |r| >= 1
    decreases |s|
  {
    var i := FindBreak(s);
    if i == |s| then [s] else [s[..i]] + SplitFrames(s[i + 2..])
  }

  function Init<T>(s: seq<T>): seq<T>
    requires s != []
  {
    s[..|s| - 1]
  }

  function Last<T>(s: seq<T>): T
    requires s != []
  {
    s[|s| - 1]
  }

  /** Index of the first line feed, or `|s|`. */
  function FindLine(s: Text): (i: nat)
    ensures i <= |s|
    ensures i < |s| ==> s[i] == '\n'
    ensures forall j :: 0 <= j < i ==> s[j] != '\n'
  {
    if s == [] || s[0] == '\n' then 0 else 1 + FindLine(s[1..])
  }

  function SplitLines(s: Text): seq<Text>
    decreases |s|
  {
    var i := FindLine(s);
    if i == |s| then [s] else [s[..i]] + SplitLines(s[i + 1..])
  }

  const DATA := "data:"

  predicate IsData(line: Text) {
    DATA <= line
  }

  /** The `data` lines of a frame, without their field name and leading white space. */
  function DataLines(lines: seq<Text>): seq<Text> {
    if lines == [] then []
    else (if IsData(lines[0]) then [TrimStart(lines[0][|DATA|..])] else []) + DataLines(lines[1..])
  }

  function Join(lines: seq<Text>): Text {
    if lines == [] then ""
    else if |lines| == 1 then lines[0]
    else lines[0] + "\n" + Join(lines[1..])
  }

  /** `emitSseChunk`: at most one payload per frame. */
  function Emit(frame: Text): seq<Text> {
    var data := Join(DataLines(SplitLines(frame)));
    if data == "" then [] else [data]
  }

  function EmitAll(frames: seq<Text>): seq<Text> {
    if frames == [] then [] else Emit(frames[0]) + EmitAll(frames[1..])
  }

  /** What a reader that sees the whole text at once emits. */
  function ParseWhole(text: Text): seq<Text> {
    var frames := SplitFrames(text);
    EmitAll(Init(frames)) + (if Blank(Last(frames)) then [] else Emit(Last(frames)))
  }

  function Concat(chunks: seq<Text>): Text {
    if chunks == [] then "" else Concat(Init(chunks)) + Last(chunks)
  }

  method EmitFrames(frames: seq<Text>) returns (emitted: seq<Text>)
    ensures emitted == EmitAll(frames)
  {
    emitted := [];
    for k := 0 to |frames|
      invariant emitted == EmitAll(frames[..k])
    {
      assert frames[..k + 1] == frames[..k] + [frames[k]];
      EmitAllConcat(frames[..k], [frames[k]]);
      emitted := emitted + Emit(frames[k]);
    }
    assert frames[..|frames|] == frames;
  }

  /** The buffer holds the unfinished frame, everything before it has been emitted. */
  ghost predicate ReadSoFar(chunks: seq<Text>, buffer: Text, emitted: seq<Text>) {
    var whole := SplitFrames(Concat(chunks));
    buffer == Last(whole) && emitted == EmitAll(Init(whole))
  }

  lemma NothingRead()
    ensures ReadSoFar([], "", [])
  {
    assert SplitFrames("") == [""];
  }

  /** `readSseStream`: the buffer keeps the unfinished frame between reads. */
  method ReadSseStream(chunks: seq<Text>) returns (emitted: seq<Text>)
    ensures emitted == ParseWhole(Concat(chunks))
  {
    emitted := [];
    var buffer := "";
    var n := 0;
    NothingRead();
    while n < |chunks|
      invariant 0 <= n <= |chunks|
      invariant ReadSoFar(chunks[..n], buffer, emitted)
    {
      var frames := SplitFrames(buffer + chunks[n]);
      ReadOneChunk(chunks[..n], chunks[n]);
      assert chunks[..n] + [chunks[n]] == chunks[..n + 1] && SplitFrames(Concat(chunks[..n])) != [];
      buffer := Last(frames);
      var more := EmitFrames(Init(frames));
      emitted := emitted + more;
      n := n + 1;
    }
    assert chunks[..n] == chunks;
    if !Blank(buffer) {
      emitted := emitted + Emit(buffer);
    }
  }

  // ----- incremental splitting -------------------------------------------------------------

  lemma {:induction false} EmitAllConcat(a: seq<Text>, b: seq<Text>)
    ensures EmitAll(a + b) == EmitAll(a) + EmitAll(b)
  {
    if a == [] {
      assert a + b == b;
    } else {
      assert (a + b)[1..] == a[1..] + b;
      EmitAllConcat(a[1..], b);
    }
  }

  /** The first separator is the only position with a separator and none before it. */
  lemma {:induction false} BreakIsFirst(s: Text, i: nat)
    requires BreakAt(s, i)
    requires forall j :: 0 <= j < i ==> !BreakAt(s, j)
    ensures FindBreak(s) == i
  {
  }

  /** Splitting what was kept of `x` together with `y` continues the split of `x`. */
  lemma {:induction false} SplitIsIncremental(x: Text, y: Text)
    ensures SplitFrames(x + y) == Init(SplitFrames(x)) + SplitFrames(Last(SplitFrames(x)) + y)
    decreases |x|
  {
    var i := FindBreak(x);
    if i < |x| {
      BreakSurvives(x, y);
      var rest := SplitFrames(x[i + 2..]);
      SplitIsIncremental(x[i + 2..], y);
      assert SplitFrames(x) == [x[..i]] + rest;
      assert Init([x[..i]] + rest) == [x[..i]] + Init(rest);
    }
  }

  /** The first separator of `x` is the first separator of `x + y`. */
  lemma BreakSurvives(x: Text, y: Text)
    requires FindBreak(x) < |x|
    ensures var i := FindBreak(x);
            SplitFrames(x + y) == [x[..i]] + SplitFrames(x[i + 2..] + y)
  {
    var i := FindBreak(x);
    assert forall j :: 0 <= j <= i ==> BreakAt(x + y, j) == BreakAt(x, j);
    BreakIsFirst(x + y, i);
    assert (x + y)[i + 2..] == x[i + 2..] + y;
    assert (x + y)[..i] == x[..i];
  }

  /** One read: the complete frames of buffer and chunk extend what was emitted, the rest is kept. */
  lemma ReadOneChunk(chunks: seq<Text>, chunk: Text)
    ensures var whole := SplitFrames(Concat(chunks));
            var next := SplitFrames(Concat(chunks + [chunk]));
            var frames := SplitFrames(Last(whole) + chunk);
            && Last(next) == Last(frames)
            && EmitAll(Init(next)) == EmitAll(Init(whole)) + EmitAll(Init(frames))
  {
    var whole := SplitFrames(Concat(chunks));
    var frames := SplitFrames(Last(whole) + chunk);
    assert Init(chunks + [chunk]) == chunks;
    SplitIsIncremental(Concat(chunks), chunk);
    assert Init(Init(whole) + frames) == Init(whole) + Init(frames);
    EmitAllConcat(Init(whole), Init(frames));
  }

  // ----- round trip ------------------------------------------------------------------------

  predicate OneLine(s: Text) {
    '\n' !in s
  }

  /** What the server's JSON encoder guarantees of an event. */
  predicate Printable(e: SseEvent) {
    && OneLine(e.kind)
    && OneLine(e.data) && e.data != "" && !IsSpace(e.data[0])
  }

  lemma {:induction false} DigitsAreOneLine(n: nat)
    ensures OneLine(Digits(n))
  {
    if n >= 10 {
      DigitsAreOneLine(n / 10);
    }
  }

  /** The lines that `Body` prints. */
  function BodyLines(e: SseEvent): seq<Text> {
    (if e.id.Some? then ["id: " + Digits(e.id.value)] else []) + ["event: " + e.kind, "data: " + e.data]
  }

  lemma {:induction false} FirstLine(line: Text, rest: Text)
    requires OneLine(line)
    ensures SplitLines(line) == [line]
    ensures SplitLines(line + "\n" + rest) == [line] + SplitLines(rest)
  {
    var s := line + "\n" + rest;
    assert FindLine(line) == |line|;
    assert forall j :: 0 <= j < |line| ==> s[j] == line[j];
    assert s[|line|] == '\n';
    assert FindLine(s) == |line|;
    assert s[..|line|] == line && s[|line| + 1..] == rest;
  }

  lemma BodySplitsIntoLines(e: SseEvent)
    requires Printable(e)
    ensures SplitLines(Body(e)) == BodyLines(e)
  {
    BodyIsTail(e);
    FirstLine("data: " + e.data, "");
    FirstLine("event: " + e.kind, "data: " + e.data);
    if e.id.Some? {
      DigitsAreOneLine(e.id.value);
      FirstLine("id: " + Digits(e.id.value), Tail(e));
    }
  }

  function Tail(e: SseEvent): Text {
    "event: " + e.kind + "\n" + ("data: " + e.data)
  }

  lemma BodyIsTail(e: SseEvent)
    ensures e.id.Some? ==> Body(e) == "id: " + Digits(e.id.value) + "\n" + Tail(e)
    ensures e.id.None? ==> Body(e) == Tail(e)
  {
  }

  lemma BodyEmitsData(e: SseEvent)
    requires Printable(e)
    ensures Emit(Body(e)) == [e.data]
  {
    BodySplitsIntoLines(e);
    var event, data := "event: " + e.kind, "data: " + e.data;
    assert event[0] == 'e' && !IsData(event);
    assert data[|DATA|..] == " " + e.data;
    assert TrimStart(" " + e.data) == e.data by {
      assert (" " + e.data)[1..] == e.data;
    }
    assert IsData(data);
    assert DataLines([data]) == [e.data];
    assert [event, data][1..] == [data];
    assert DataLines([event, data]) == [e.data];
    if e.id.Some? {
      var id := "id: " + Digits(e.id.value);
      assert id[0] == 'i' && !IsData(id);
      assert BodyLines(e)[1..] == [event, data];
    } else {
      assert BodyLines(e) == [event, data];
    }
  }

  /** Text without a blank line, and not ending in a line feed. */
  ghost predicate Solid(s: Text) {
    && (forall j :: 0 <= j < |s| ==> !BreakAt(s, j))
    && (s != [] ==> s[|s| - 1] != '\n')
  }

  lemma SolidLines(line: Text, rest: Text)
    requires OneLine(line) && line != "" && Solid(rest) && rest != "" && rest[0] != '\n'
    ensures Solid(line + "\n" + rest)
  {
    var s := line + "\n" + rest;
    forall j | 0 <= j < |s|
      ensures !BreakAt(s, j)
    {
      if j < |line| {
        assert s[j] == line[j];
      } else if j > |line| {
        assert BreakAt(s, j) == BreakAt(rest, j - |line| - 1);
      } else {
        assert s[j + 1] == rest[0];
      }
    }
    assert s[|s| - 1] == rest[|rest| - 1];
  }

  lemma BodyIsSolid(e: SseEvent)
    requires Printable(e)
    ensures Solid(Body(e))
  {
    var event, data := "event: " + e.kind, "data: " + e.data;
    assert OneLine(data) && data[0] == 'd' && Solid(data);
    SolidLines(event, data);
    var tail := event + "\n" + data;
    if e.id.Some? {
      DigitsAreOneLine(e.id.value);
      var id := "id: " + Digits(e.id.value);
      assert tail[0] == 'e';
      SolidLines(id, tail);
      assert Body(e) == id + "\n" + tail;
    } else {
      assert Body(e) == tail;
    }
  }

  /** A printed event is cut off exactly at its blank line, whatever follows. */
  lemma FormatIsOneFrame(e: SseEvent, rest: Text)
    requires Printable(e)
    ensures SplitFrames(Format(e) + rest) == [Body(e)] + SplitFrames(rest)
  {
    var body, s := Body(e), Format(e) + rest;
    BodyIsSolid(e);
    assert BreakAt(s, |body|);
    forall j | 0 <= j < |body|
      ensures !BreakAt(s, j)
    {
      assert s[j] == body[j] && !BreakAt(body, j);
      assert j + 1 < |body| ==> s[j + 1] == body[j + 1];
    }
    BreakIsFirst(s, |body|);
    assert s[..|body|] == body && s[|body| + 2..] == rest;
  }

  function Payloads(events: seq<SseEvent>): seq<Text> {
    if events == [] then [] else [events[0].data] + Payloads(events[1..])
  }

  lemma {:induction false} ParseUndoesPrint(events: seq<SseEvent>)
    requires forall i :: 0 <= i < |events| ==> Printable(events[i])
    ensures ParseWhole(Print(events)) == Payloads(events)
  {
    if events == [] {
      NothingToRead();
    } else {
      ParseOneMore(events[0], Print(events[1..]));
      ParseUndoesPrint(events[1..]);
    }
  }

  lemma NothingToRead()
    ensures ParseWhole("") == []
  {
    assert SplitFrames("") == [""];
  }

  lemma ParseOneMore(e: SseEvent, rest: Text)
    requires Printable(e)
    ensures ParseWhole(Format(e) + rest) == [e.data] + ParseWhole(rest)
  {
    FormatIsOneFrame(e, rest);
    BodyEmitsData(e);
    var frames := SplitFrames(rest);
    assert Init([Body(e)] + frames) == [Body(e)] + Init(frames);
    assert ([Body(e)] + Init(frames))[1..] == Init(frames);
  }

  /** Printing and incremental reading undo each other, however the text is cut into chunks. */
  method ReadPrinted(events: seq<SseEvent>, chunks: seq<Text>) returns (emitted: seq<Text>)
    requires forall i :: 0 <= i < |events| ==> Printable(events[i])
    requires Concat(chunks) == Print(events)
    ensures emitted == Payloads(events)
  {
    ParseUndoesPrint(events);
    emitted := ReadSseStream(chunks);
  }
}
