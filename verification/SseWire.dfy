/**
 Server-sent events on the wire: the API's frame printer, the browser's incremental
 parser, and the cursor a client sends back when it reconnects.
 */
module SseWire {
  import opened Wrappers
  import opened Text

  /** One event to send; `data` is the compact JSON text of its payload. */
  datatype Frame = Frame(id: Option<string>, event: string, data: string)

  /** What a listener receives. */
  datatype Message = Message(event: string, data: string, lastEventId: string)

  // ---------------------------------------------------------------- the printer

  /** Line boundaries of Python's str.splitlines(). */
  predicate IsLineBreak(c: char) {
    || '\U{A}' <= c <= '\U{D}' || '\U{1C}' <= c <= '\U{1E}'
    || c == '\U{85}' || c == '\U{2028}' || c == '\U{2029}'
  }

  /** Length of the first line of `s`. */
  function FirstLine(s: string): (k: nat)
    ensures k <= |s| && forall i | 0 <= i < k :: !IsLineBreak(s[i])
    ensures k < |s| ==> IsLineBreak(s[k])
  {
    if s == "" || IsLineBreak(s[0]) then 0 else 1 + FirstLine(s[1..])
  }

  function SplitLines(s: string): (lines: seq<string>)
    ensures lines == [] <==> s == ""
    ensures forall l | l in lines :: forall i | 0 <= i < |l| :: !IsLineBreak(l[i])
    decreases |s|
  {
    if s == "" then []
    else
      var k := FirstLine(s);
      if k == |s| then [s]
      else
        var width := if s[k] == '\r' && k + 1 < |s| && s[k + 1] == '\n' then 2 else 1;
        [s[..k]] + SplitLines(s[k + width..])
  }

  function DataLines(data: string): seq<string> {
    var lines := SplitLines(data);
    if lines == [] then ["{}"] else lines
  }

  function Prefixed(prefix: string, lines: seq<string>): (r: seq<string>)
    ensures |r| == |lines| && forall i | 0 <= i < |r| :: r[i] == prefix + lines[i]
  {
    seq(|lines|, i requires 0 <= i < |lines| => prefix + lines[i])
  }

  /** The lines of a frame, without the empty one that ends it. */
  function FrameLines(f: Frame): seq<string> {
    (if f.id.Some? then ["id: " + f.id.value] else [])
    + ["event: " + f.event] + Prefixed("data: ", DataLines(f.data))
  }

  function Encode(f: Frame): string {
    Join(FrameLines(f) + [""], "\n") + "\n"
  }

  /** _encode_sse_event. */
  method EncodeSseEvent(event: string, data: string, eventId: Option<string>) returns (text: string)
    ensures text == Encode(Frame(eventId, event, data))
  {
    hide DataLines, Join;
    var lines: seq<string> := [];
    if eventId.Some? {
      lines := lines + ["id: " + eventId.value];
    }
    lines := lines + ["event: " + event];
    var dataLines := DataLines(data);
    ghost var head := lines;
    for i := 0 to |dataLines|
      invariant lines == head + Prefixed("data: ", dataLines[..i])
    {
      lines := lines + ["data: " + dataLines[i]];
    }
    assert dataLines[..|dataLines|] == dataLines;
    assert lines == FrameLines(Frame(eventId, event, data));
    lines := lines + [""];
    return Join(lines, "\n") + "\n";
  }

  // ---------------------------------------------------------------- the parser

  /** Length of a match of the blank-line pattern `\r?\n\r?\n` at position `i`, or 0. */
  function BlankAt(s: string, i: nat): (length: nat)
    requires i <= |s|
    ensures length > 0 ==> 2 <= length <= 4 && i + length <= |s|
  {
    var j := if i < |s| && s[i] == '\r' then i + 1 else i;
    if j < |s| && s[j] == '\n' then
      var k := if j + 1 < |s| && s[j + 1] == '\r' then j + 2 else j + 1;
      if k < |s| && s[k] == '\n' then k + 1 - i else 0
    else 0
  }

  /** The leftmost match at or after `i`, or the end of the text. */
  function FindBlank(s: string, i: nat): (k: nat)
    requires i <= |s|
    ensures i <= k <= |s| && forall j | i <= j < k :: BlankAt(s, j) == 0
    ensures k < |s| ==> BlankAt(s, k) > 0
    decreases |s| - i
  {
    if i == |s| || BlankAt(s, i) > 0 then i else FindBlank(s, i + 1)
  }

  /** buffer.split on blank lines; the last part is what follows the last blank line. */
  function SplitBlocks(s: string): (parts: seq<string>)
    ensures parts != []
    decreases |s|
  {
    var k := FindBlank(s, 0);
    if k == |s| then [s] else [s[..k]] + SplitBlocks(s[k + BlankAt(s, k)..])
  }

  /** Length of a line of a block, and of the `\r?\n` behind it. */
  function LineEnd(s: string): (k: nat)
    ensures k <= |s|
    ensures k < |s| ==> s[k] == '\n' || (k + 1 < |s| && s[k] == '\r' && s[k + 1] == '\n')
  {
    if s == "" || s[0] == '\n' || (|s| > 1 && s[0] == '\r' && s[1] == '\n') then 0 else 1 + LineEnd(s[1..])
  }

  function SplitFields(s: string): (lines: seq<string>)
    ensures lines != []
    decreases |s|
  {
    var k := LineEnd(s);
    if k == |s| then [s]
    else [s[..k]] + SplitFields(s[if s[k] == '\r' then k + 2 else k + 1..])
  }

  datatype Fields = Fields(event: string, id: string, data: seq<string>)

  function AddField(f: Fields, line: string): Fields {
    Fields(
      if StartsWith(line, "event:") then Trim(line[6..], IsJsSpace) else f.event,
      if StartsWith(line, "id:") then Trim(line[3..], IsJsSpace) else f.id,
      if StartsWith(line, "data:") then f.data + [TrimStart(line[5..], IsJsSpace)] else f.data)
  }

  function AddFields(f: Fields, lines: seq<string>): Fields {
    if lines == [] then f else AddField(AddFields(f, lines[..|lines| - 1]), lines[|lines| - 1])
  }

  const NO_FIELDS := Fields("message", "", [])

  function ParseBlock(raw: string): Message {
    var f := AddFields(NO_FIELDS, SplitFields(raw));
    Message(f.event, Join(f.data, "\n"), f.id)
  }

  function ParseBlocks(blocks: seq<string>): (messages: seq<Message>)
    ensures |messages| == |blocks| && forall i | 0 <= i < |blocks| :: messages[i] == ParseBlock(blocks[i])
  {
    seq(|blocks|, i requires 0 <= i < |blocks| => ParseBlock(blocks[i]))
  }

  function Init<T>(s: seq<T>): seq<T>
    requires s != []
  {
    s[..|s| - 1]
  }

  function Last<T>(s: seq<T>): T
    requires s != []
  {
    s[|s| - 1]
  }

  /** What a client receives from a whole text, if it arrived in one piece. */
  function Received(text: string): seq<Message> {
    var parts := SplitBlocks(text);
    ParseBlocks(Init(parts)) + if Trim(Last(parts), IsJsSpace) != "" then [ParseBlock(Last(parts))] else []
  }

  function Concat(chunks: seq<string>): string {
    if chunks == [] then "" else Concat(Init(chunks)) + Last(chunks)
  }

  class FetchEventStream {
    var buffer: string
    var dispatched: seq<Message>

    constructor ()
      ensures buffer == "" && dispatched == []
    {
      buffer, dispatched := "", [];
    }

    method Dispatch(raw: string)
      modifies this`dispatched
      ensures dispatched == old(dispatched) + [ParseBlock(raw)]
    {
      hide SplitFields, StartsWith, Trim, TrimStart, Join;
      var lines := SplitFields(raw);
      var eventName, eventId := "message", "";
      var dataLines: seq<string> := [];
      for i := 0 to |lines|
        invariant Fields(eventName, eventId, dataLines) == AddFields(NO_FIELDS, lines[..i])
      {
        assert lines[..i + 1][..i] == lines[..i];
        var line := lines[i];
        if StartsWith(line, "event:") { eventName := Trim(line[6..], IsJsSpace); }
        if StartsWith(line, "id:") { eventId := Trim(line[3..], IsJsSpace); }
        if StartsWith(line, "data:") { dataLines := dataLines + [TrimStart(line[5..], IsJsSpace)]; }
      }
      assert lines[..|lines|] == lines;
      dispatched := dispatched + [Message(eventName, Join(dataLines, "\n"), eventId)];
    }

    /** One chunk read from the response body. */
    method Feed(chunk: string)
      modifies this
      ensures var parts := SplitBlocks(old(buffer) + chunk);
              dispatched == old(dispatched) + ParseBlocks(Init(parts)) && buffer == Last(parts)
    {
      hide SplitBlocks, ParseBlock;
      var parts := SplitBlocks(buffer + chunk);
      buffer := Last(parts);
      parts := Init(parts);
      for i := 0 to |parts|
        invariant dispatched == old(dispatched) + ParseBlocks(parts[..i])
        invariant buffer == Last(SplitBlocks(old(buffer) + chunk))
      {
        Dispatch(parts[i]);
      }
      assert parts[..|parts|] == parts;
    }

    method Close()
      modifies this`dispatched
      ensures dispatched == old(dispatched) + if Trim(buffer, IsJsSpace) != "" then [ParseBlock(buffer)] else []
    {
      hide Trim, ParseBlock;
      if Trim(buffer, IsJsSpace) != "" {
        Dispatch(buffer);
      }
    }
  }

  /** A match of the pattern stays one when more text arrives. */
  lemma MatchIsStable(a: string, b: string, j: nat)
    requires j <= |a| && BlankAt(a, j) > 0
    ensures BlankAt(a + b, j) == BlankAt(a, j)
  {
    assert forall k | 0 <= k < |a| :: (a + b)[k] == a[k];
  }

  /** No match appears before one that is already complete. */
  lemma NoEarlierMatch(a: string, b: string, j: nat, i: nat)
    requires j < i <= |a| && BlankAt(a, i) > 0 && BlankAt(a, j) == 0
    ensures BlankAt(a + b, j) == 0
  {
    assert forall k | 0 <= k < |a| :: (a + b)[k] == a[k];
  }

  /** A break found in `a` is the break of every longer text. */
  lemma {:induction false} BlankIsStable(a: string, b: string)
    requires FindBlank(a, 0) < |a|
    ensures FindBlank(a + b, 0) == FindBlank(a, 0)
    ensures BlankAt(a + b, FindBlank(a, 0)) == BlankAt(a, FindBlank(a, 0))
  {
    hide BlankAt, FindBlank;
    var i, k := FindBlank(a, 0), FindBlank(a + b, 0);
    MatchIsStable(a, b, i);
    if k < i {
      NoEarlierMatch(a, b, k, i);
    }
  }

  /** Splitting a longer text is splitting what was left over with the new text behind it. */
  lemma {:induction false} SplitAppends(a: string, b: string)
    ensures SplitBlocks(a + b) == Init(SplitBlocks(a)) + SplitBlocks(Last(SplitBlocks(a)) + b)
    decreases |a|
  {
    hide BlankAt, FindBlank;
    var i := FindBlank(a, 0);
    if i < |a| {
      BlankIsStable(a, b);
      var rest := a[i + BlankAt(a, i)..];
      assert (a + b)[i + BlankAt(a, i)..] == rest + b && (a + b)[..i] == a[..i];
      SplitAppends(rest, b);
    }
  }

  lemma ParsedParts(done: seq<string>, parts: seq<string>)
    requires parts != []
    ensures ParseBlocks(Init(done + parts)) == ParseBlocks(done) + ParseBlocks(Init(parts))
    ensures Last(done + parts) == Last(parts)
  {
    hide ParseBlock;
    assert Init(done + parts) == done + Init(parts);
  }

  lemma NothingYet()
    ensures SplitBlocks("") == [""] && ParseBlocks([]) == []
  {
  }

  /** The client's read loop: how the text is cut into chunks makes no difference. */
  method ReadAll(chunks: seq<string>) returns (messages: seq<Message>)
    ensures messages == Received(Concat(chunks))
  {
    hide SplitBlocks, ParseBlocks, Trim;
    var stream := new FetchEventStream();
    NothingYet();
    for i := 0 to |chunks|
      invariant fresh(stream)
      invariant stream.dispatched == ParseBlocks(Init(SplitBlocks(Concat(chunks[..i]))))
      invariant stream.buffer == Last(SplitBlocks(Concat(chunks[..i])))
    {
      ghost var text := Concat(chunks[..i]);
      assert Init(chunks[..i + 1]) == chunks[..i];
      SplitAppends(text, chunks[i]);
      ParsedParts(Init(SplitBlocks(text)), SplitBlocks(stream.buffer + chunks[i]));
      stream.Feed(chunks[i]);
    }
    assert chunks[..|chunks|] == chunks;
    stream.Close();
    return stream.dispatched;
  }

  // ---------------------------------------------------------------- the round trip

  /** An id or event name that the parser neither trims nor cuts. */
  predicate CleanName(s: string) {
    Trimmed(s, IsJsSpace) && forall i | 0 <= i < |s| :: s[i] != '\n' && s[i] != '\r'
  }

  predicate CleanFrame(f: Frame) {
    CleanName(f.event) && (f.id.Some? ==> CleanName(f.id.value))
  }

  /** Lines that hold no line break of their own. */
  predicate Unbroken(line: string) {
    line != "" && forall i | 0 <= i < |line| :: line[i] != '\n' && line[i] != '\r'
  }

  function TrimmedStarts(lines: seq<string>): (r: seq<string>)
    ensures |r| == |lines| && forall i | 0 <= i < |r| :: r[i] == TrimStart(lines[i], IsJsSpace)
  {
    seq(|lines|, i requires 0 <= i < |lines| => TrimStart(lines[i], IsJsSpace))
  }

  /** What arrives for a frame. */
  function Delivered(f: Frame): Message {
    Message(f.event, Join(TrimmedStarts(DataLines(f.data)), "\n"), f.id.Or(""))
  }

  function DeliveredAll(frames: seq<Frame>): (messages: seq<Message>)
    ensures |messages| == |frames| && forall i | 0 <= i < |frames| :: messages[i] == Delivered(frames[i])
  {
    seq(|frames|, i requires 0 <= i < |frames| => Delivered(frames[i]))
  }

  function EncodeAll(frames: seq<Frame>): string {
    if frames == [] then "" else Encode(frames[0]) + EncodeAll(frames[1..])
  }

  /** Text in which no blank line starts: no line feed at an end, next to another, or near a carriage return. */
  predicate Solid(s: string) {
    && s != "" && s[0] != '\n' && s[|s| - 1] != '\n'
    && (forall i | 0 <= i < |s| :: s[i] != '\r')
    && (forall i | 0 <= i < |s| - 1 :: s[i] == '\n' ==> s[i + 1] != '\n')
  }

  lemma {:induction false} JoinedLinesAreSolid(lines: seq<string>)
    requires lines != [] && forall l | l in lines :: Unbroken(l)
    ensures Solid(Join(lines, "\n"))
  {
    assert Unbroken(lines[0]);
    if |lines| > 1 {
      JoinedLinesAreSolid(lines[1..]);
    }
  }

  lemma {:induction false} SolidHasNoBlank(s: string, rest: string, i: nat)
    requires Solid(s) && i <= |s|
    ensures FindBlank(s + "\n\n" + rest, i) == |s| && BlankAt(s + "\n\n" + rest, |s|) == 2
    decreases |s| - i
  {
    var t := s + "\n\n" + rest;
    assert t[|s|] == '\n' && t[|s| + 1] == '\n';
    assert forall k | 0 <= k < |s| :: t[k] == s[k];
    if i < |s| {
      assert BlankAt(t, i) == 0;
      SolidHasNoBlank(s, rest, i + 1);
    }
  }

  lemma {:induction false} LineEndsAtBreak(line: string, rest: string)
    requires forall i | 0 <= i < |line| :: line[i] != '\n' && line[i] != '\r'
    ensures LineEnd(line + "\n" + rest) == |line| && LineEnd(line) == |line|
  {
    var t := line + "\n" + rest;
    if line == "" {
      assert t[0] == '\n';
    } else {
      assert t[0] == line[0] && t[1..] == line[1..] + "\n" + rest;
      LineEndsAtBreak(line[1..], rest);
    }
  }

  /** Splitting a block into lines undoes joining them. */
  lemma {:induction false} LinesComeBack(lines: seq<string>)
    requires lines != [] && forall l | l in lines :: Unbroken(l)
    ensures SplitFields(Join(lines, "\n")) == lines
  {
    var line, s := lines[0], Join(lines, "\n");
    assert Unbroken(line);
    if |lines| == 1 {
      LineEndsAtBreak(line, "");
    } else {
      var rest := Join(lines[1..], "\n");
      LineEndsAtBreak(line, rest);
      assert s[|line|] == '\n' && s[..|line|] == line && s[|line| + 1..] == rest;
      LinesComeBack(lines[1..]);
    }
  }

  lemma OtherPrefix(s: string, prefix: string)
    requires s != "" && prefix != "" && s[0] != prefix[0]
    ensures !StartsWith(s, prefix)
  {
    if |prefix| <= |s| {
      assert s[..|prefix|][0] == s[0];
    }
  }

  lemma {:induction false} FieldLine(name: string, value: string)
    ensures var l := name + " " + value;
            StartsWith(l, name) && l[|name|..] == " " + value
    ensures TrimStart(" " + value, IsJsSpace) == TrimStart(value, IsJsSpace)
    ensures Trimmed(value, IsJsSpace) ==> Trim(" " + value, IsJsSpace) == value
  {
    assert (" " + value)[1..] == value;
  }

  lemma {:induction false} AddDataLine(f: Fields, value: string)
    ensures AddField(f, "data: " + value) == f.(data := f.data + [TrimStart(value, IsJsSpace)])
  {
    hide StartsWith, TrimStart, Trim, Trimmed;
    var line := "data:" + " " + value;
    assert "data: " + value == line;
    FieldLine("data:", value);
    OtherPrefix(line, "event:");
    OtherPrefix(line, "id:");
  }

  lemma AddEventLine(f: Fields, value: string)
    requires Trimmed(value, IsJsSpace)
    ensures AddField(f, "event: " + value) == f.(event := value)
  {
    hide StartsWith, TrimStart, Trim, Trimmed;
    var line := "event:" + " " + value;
    assert "event: " + value == line;
    FieldLine("event:", value);
    OtherPrefix(line, "data:");
    OtherPrefix(line, "id:");
  }

  lemma AddIdLine(f: Fields, value: string)
    requires Trimmed(value, IsJsSpace)
    ensures AddField(f, "id: " + value) == f.(id := value)
  {
    hide StartsWith, TrimStart, Trim, Trimmed;
    var line := "id:" + " " + value;
    assert "id: " + value == line;
    FieldLine("id:", value);
    OtherPrefix(line, "data:");
    OtherPrefix(line, "event:");
  }

  lemma {:induction false} AddFieldsSnoc(f: Fields, lines: seq<string>, line: string)
    ensures AddFields(f, lines + [line]) == AddField(AddFields(f, lines), line)
  {
    hide AddField;
    assert (lines + [line])[..|lines|] == lines;
  }

  lemma PrefixedSnoc(prefix: string, lines: seq<string>, line: string)
    ensures Prefixed(prefix, lines + [line]) == Prefixed(prefix, lines) + [prefix + line]
  {
    hide TrimStart, Prefixed, TrimmedStarts;
    var longer := lines + [line];
    var p, q := Prefixed(prefix, longer), Prefixed(prefix, lines) + [prefix + line];
    forall i | 0 <= i < |p| ensures p[i] == q[i] {
      assert longer[i] == if i < |lines| then lines[i] else line;
    }
    assert p == q;
  }

  lemma {:induction false} TrimmedStartsSnoc(lines: seq<string>, line: string)
    ensures TrimmedStarts(lines + [line]) == TrimmedStarts(lines) + [TrimStart(line, IsJsSpace)]
  {
    hide TrimStart, TrimmedStarts;
    var longer := lines + [line];
    var p, q := TrimmedStarts(longer), TrimmedStarts(lines) + [TrimStart(line, IsJsSpace)];
    forall i | 0 <= i < |p| ensures p[i] == q[i] {
      assert longer[i] == if i < |lines| then lines[i] else line;
    }
    assert p == q;
  }

  lemma {:induction false} AddOneDataLine(f: Fields, before: seq<string>, g: Fields, line: string)
    requires AddFields(f, before) == g
    ensures AddFields(f, before + ["data: " + line]) == g.(data := g.data + [TrimStart(line, IsJsSpace)])
  {
    hide AddField, AddFields, TrimStart;
    AddFieldsSnoc(f, before, "data: " + line);
    AddDataLine(g, line);
  }

  lemma Regroup<T>(a: seq<T>, b: seq<T>, x: T)
    ensures a + (b + [x]) == (a + b) + [x]
  {
  }

  lemma {:induction false} AddDataLines(head: seq<string>, lines: seq<string>)
    ensures var f := AddFields(NO_FIELDS, head);
            AddFields(NO_FIELDS, head + Prefixed("data: ", lines)) == f.(data := f.data + TrimmedStarts(lines))
  {
    hide AddField, AddFields, TrimStart, Prefixed, TrimmedStarts;
    var f := AddFields(NO_FIELDS, head);
    if lines == [] {
      assert head + Prefixed("data: ", lines) == head;
      assert f.data + TrimmedStarts(lines) == f.data;
    } else {
      var init, line := Init(lines), Last(lines);
      AddDataLines(head, init);
      assert lines == init + [line];
      PrefixedSnoc("data: ", init, line);
      TrimmedStartsSnoc(init, line);
      Regroup(head, Prefixed("data: ", init), "data: " + line);
      Regroup(f.data, TrimmedStarts(init), TrimStart(line, IsJsSpace));
      AddOneDataLine(NO_FIELDS, head + Prefixed("data: ", init), f.(data := f.data + TrimmedStarts(init)), line);
    }
  }

  lemma FrameFields(f: Frame)
    requires CleanFrame(f)
    ensures AddFields(NO_FIELDS, FrameLines(f)) == Fields(f.event, f.id.Or(""), TrimmedStarts(DataLines(f.data)))
  {
    hide AddField, TrimStart, DataLines;
    var event := "event: " + f.event;
    var head := (if f.id.Some? then ["id: " + f.id.value] else []) + [event];
    AddDataLines(head, DataLines(f.data));
    if f.id.Some? {
      assert head[..1] == ["id: " + f.id.value] && head[..1][..0] == [];
      AddIdLine(NO_FIELDS, f.id.value);
      assert AddFields(NO_FIELDS, head[..1]) == NO_FIELDS.(id := f.id.value);
      AddEventLine(NO_FIELDS.(id := f.id.value), f.event);
    } else {
      assert head[..0] == [];
      AddEventLine(NO_FIELDS, f.event);
    }
  }

  lemma UnbrokenAppend(prefix: string, s: string)
    requires Unbroken(prefix) && forall i | 0 <= i < |s| :: s[i] != '\n' && s[i] != '\r'
    ensures Unbroken(prefix + s)
  {
  }

  lemma DataLineIsUnbroken(data: string, line: string)
    requires line in DataLines(data)
    ensures Unbroken("data: " + line)
  {
    assert forall i | 0 <= i < |line| :: line[i] != '\n' && line[i] != '\r';
    UnbrokenAppend("data: ", line);
  }

  lemma FrameLinesAreUnbroken(f: Frame)
    requires CleanFrame(f)
    ensures forall l | l in FrameLines(f) :: Unbroken(l)
  {
    hide DataLines, Unbroken, Trimmed;
    var data := DataLines(f.data);
    forall i | 0 <= i < |data| ensures Unbroken(Prefixed("data: ", data)[i]) {
      DataLineIsUnbroken(f.data, data[i]);
    }
    SomePrefixes();
    UnbrokenAppend("event: ", f.event);
    if f.id.Some? {
      UnbrokenAppend("id: ", f.id.value);
    }
  }

  lemma SomePrefixes()
    ensures Unbroken("event: ") && Unbroken("id: ")
  {
  }

  lemma FrameIsItsLines(f: Frame, rest: string)
    ensures Encode(f) + rest == Join(FrameLines(f), "\n") + "\n\n" + rest
  {
    hide DataLines, Join, Prefixed;
    JoinSnoc(FrameLines(f), "", "\n");
  }

  lemma {:induction false} FrameIsDelivered(f: Frame, rest: string)
    requires CleanFrame(f)
    ensures SplitBlocks(Encode(f) + rest) == [Join(FrameLines(f), "\n")] + SplitBlocks(rest)
    ensures ParseBlock(Join(FrameLines(f), "\n")) == Delivered(f)
  {
    hide FrameLines, Encode, FindBlank, BlankAt, Join, AddFields, SplitFields, DataLines;
    var lines := FrameLines(f);
    assert lines != [] by { AtLeastOneLine(f); }
    FrameLinesAreUnbroken(f);
    JoinedLinesAreSolid(lines);
    var body := Join(lines, "\n");
    FrameIsItsLines(f, rest);
    SolidHasNoBlank(body, rest, 0);
    var t := body + "\n\n" + rest;
    assert t[..|body|] == body && t[|body| + 2..] == rest;
    LinesComeBack(lines);
    FrameFields(f);
  }

  lemma AtLeastOneLine(f: Frame)
    ensures FrameLines(f) != []
  {
  }

  /** The parser delivers exactly the frames that were printed, in order, and nothing is left over. */
  lemma {:induction false} FramesRoundTrip(frames: seq<Frame>)
    requires forall f | f in frames :: CleanFrame(f)
    ensures Received(EncodeAll(frames)) == DeliveredAll(frames)
    ensures Last(SplitBlocks(EncodeAll(frames))) == ""
  {
    hide SplitBlocks, ParseBlock, Encode, Delivered, CleanFrame, Join, FrameLines, Trim;
    if frames == [] {
      NothingYet();
      assert Trim("", IsJsSpace) == "" by { TrimmedStays("", IsJsSpace); }
    } else {
      var f, rest := frames[0], EncodeAll(frames[1..]);
      FramesRoundTrip(frames[1..]);
      FrameIsDelivered(f, rest);
      ParsedParts([Join(FrameLines(f), "\n")], SplitBlocks(rest));
    }
  }

  /** Any way of cutting the printed frames into chunks delivers the frames. */
  method StreamRoundTrip(frames: seq<Frame>, chunks: seq<string>) returns (messages: seq<Message>)
    requires forall f | f in frames :: CleanFrame(f)
    requires Concat(chunks) == EncodeAll(frames)
    ensures messages == DeliveredAll(frames)
  {
    FramesRoundTrip(frames);
    messages := ReadAll(chunks);
  }

  // ---------------------------------------------------------------- which data survives

  /** Text of a JSON object as json.dumps writes it: control characters are escaped. */
  predicate JsonObjectText(data: string) {
    |data| >= 2 && data[0] == '{' && data[|data| - 1] == '}' && forall i | 0 <= i < |data| :: data[i] >= ' '
  }

  lemma {:induction false} JoinKeepsBreak(first: string, rest: seq<string>)
    requires rest != []
    ensures '\n' in Join([first] + rest, "\n")
  {
    var parts := [first] + rest;
    assert parts[1..] == rest;
    assert Join(parts, "\n")[|first|] == '\n';
  }

  /** The line breaks that JSON text leaves as they are. */
  predicate IsUnicodeBreak(c: char) {
    c == '\U{85}' || c == '\U{2028}' || c == '\U{2029}'
  }

  /** Where the first break is decides how many data lines there are. */
  lemma {:induction false} DataLinesOf(data: string)
    requires JsonObjectText(data)
    ensures var k := FirstLine(data);
            if k == |data| then DataLines(data) == [data]
            else |DataLines(data)| > 1 && IsUnicodeBreak(data[k])
  {
    hide FirstLine;
    var k := FirstLine(data);
    if k < |data| {
      assert data[k] != '\r' && IsUnicodeBreak(data[k]);
      var rest := SplitLines(data[k + 1..]);
      assert rest != [];
      assert SplitLines(data) == [data[..k]] + rest;
    }
  }

  lemma {:induction false} LinesArrive(data: string)
    requires JsonObjectText(data)
    ensures var text := Join(TrimmedStarts(DataLines(data)), "\n");
            if FirstLine(data) == |data| then text == data else '\n' in text
  {
    hide TrimStart, TrimmedStarts, FirstLine, Join, DataLines, IsJsSpace;
    DataLinesOf(data);
    if FirstLine(data) == |data| {
      OneLineArrives(data);
    } else {
      ManyLinesArrive(TrimmedStarts(DataLines(data)));
    }
  }

  lemma OneLineArrives(data: string)
    requires JsonObjectText(data)
    ensures Join(TrimmedStarts([data]), "\n") == data
  {
    hide TrimStart, TrimmedStarts;
    assert TrimStart(data, IsJsSpace) == data;
    assert TrimmedStarts([data]) == [data];
  }

  lemma {:induction false} ManyLinesArrive(lines: seq<string>)
    requires |lines| > 1
    ensures '\n' in Join(lines, "\n")
  {
    hide Join;
    JoinKeepsBreak(lines[0], lines[1..]);
    assert lines == [lines[0]] + lines[1..];
  }

  /** JSON data arrives unchanged exactly when it holds none of U+0085, U+2028 and U+2029. */
  lemma DataSurvives(f: Frame)
    requires JsonObjectText(f.data)
    ensures Delivered(f).data == f.data
        <==> forall i | 0 <= i < |f.data| :: !IsUnicodeBreak(f.data[i])
  {
    hide TrimmedStarts, FirstLine, Join, DataLines;
    DataLinesOf(f.data);
    LinesArrive(f.data);
  }

  /** An empty payload is printed as an empty object. */
  lemma EmptyDataIsObject(f: Frame)
    requires f.data == ""
    ensures Delivered(f).data == "{}"
  {
    hide TrimStart, TrimmedStarts;
    assert DataLines(f.data) == ["{}"];
    assert TrimStart("{}", IsJsSpace) == "{}";
    assert TrimmedStarts(["{}"]) == ["{}"];
  }

  /** The characters at which Python's splitlines breaks. */
  lemma LineBreaksExactly(c: char)
    ensures IsLineBreak(c) <==> c in "\n\U{B}\U{C}\r\U{1C}\U{1D}\U{1E}\U{85}\U{2028}\U{2029}"
  {
  }

  lemma {:induction false} FirstLineEnds(line: string, rest: string)
    requires forall i | 0 <= i < |line| :: !IsLineBreak(line[i])
    requires rest != "" ==> IsLineBreak(rest[0])
    ensures FirstLine(line + rest) == |line|
  {
    hide IsLineBreak;
    var s := line + rest;
    if line != "" {
      assert s[1..] == line[1..] + rest;
      FirstLineEnds(line[1..], rest);
    } else {
      assert s == rest;
    }
  }

  predicate BreakFree(line: string) {
    line != "" && forall i | 0 <= i < |line| :: !IsLineBreak(line[i])
  }

  /** The first line and the break behind it. */
  lemma {:induction false} FirstBreak(line: string, sep: string, rest: string)
    requires BreakFree(line) && sep in ["\n", "\r\n", "\r"]
    ensures FirstLine(line + (sep + rest)) == |line| && FirstLine(line) == |line|
  {
    assert IsLineBreak(sep[0]) by { LineBreaksExactly(sep[0]); }
    hide IsLineBreak, FirstLine;
    FirstLineEnds(line, sep + rest);
    FirstLineEnds(line, "");
    assert line + "" == line;
  }

  lemma {:induction false} SplitStep(line: string, sep: string, rest: string)
    requires BreakFree(line) && sep in ["\n", "\r\n", "\r"]
    requires sep == "\r" && rest != "" ==> rest[0] != '\n'
    ensures SplitLines(line + (sep + rest)) == [line] + SplitLines(rest) && SplitLines(line) == [line]
  {
    FirstBreak(line, sep, rest);
    assert line != "";
    hide BreakFree, FirstLine, IsLineBreak;
    var s := line + (sep + rest);
    assert s[|line|] == sep[0] && s[..|line|] == line && s[|line| + |sep|..] == rest;
    assert |sep| == 2 ==> s[|line| + 1] == '\n';
    assert |sep| == 1 && |line| + 1 < |s| ==> s[|line| + 1] == rest[0];
  }

  /** Lines come back from splitlines, whether line feeds, carriage returns or both of them end the lines. */
  lemma {:induction false} TextLinesComeBack(lines: seq<string>, sep: string)
    requires lines != [] && sep in ["\n", "\r\n", "\r"]
    requires forall l | l in lines :: BreakFree(l)
    ensures SplitLines(Join(lines, sep)) == lines
  {
    hide SplitLines, BreakFree;
    assert BreakFree(lines[0]);
    if |lines| == 1 {
      SplitStep(lines[0], sep, "");
    } else {
      var rest := Join(lines[1..], sep);
      StartsWithoutFeed(lines[1..], sep);
      SplitStep(lines[0], sep, rest);
      assert Join(lines, sep) == lines[0] + (sep + rest);
      TextLinesComeBack(lines[1..], sep);
    }
  }

  lemma {:induction false} StartsWithoutFeed(lines: seq<string>, sep: string)
    requires lines != [] && BreakFree(lines[0])
    ensures Join(lines, sep) != "" && Join(lines, sep)[0] != '\n'
  {
    assert !IsLineBreak(lines[0][0]);
  }

  // ---------------------------------------------------------------- any server's lines

  lemma NamedLine(name: string, value: string)
    ensures StartsWith(name + value, name) && (name + value)[|name|..] == value
  {
  }

  /** What each kind of line sets. */
  lemma {:induction false} LinesSetFields(f: Fields, value: string)
    ensures AddField(f, "event:" + value) == f.(event := Trim(value, IsJsSpace))
    ensures AddField(f, "id:" + value) == f.(id := Trim(value, IsJsSpace))
    ensures AddField(f, "data:" + value) == f.(data := f.data + [TrimStart(value, IsJsSpace)])
  {
    hide Trim, TrimStart, StartsWith;
    NamedLine("event:", value);
    NamedLine("id:", value);
    NamedLine("data:", value);
    OtherPrefix("event:" + value, "id:");
    OtherPrefix("event:" + value, "data:");
    OtherPrefix("id:" + value, "event:");
    OtherPrefix("id:" + value, "data:");
    OtherPrefix("data:" + value, "event:");
    OtherPrefix("data:" + value, "id:");
  }

  /** Lines of any other kind, such as comments, set nothing. */
  lemma OtherLinesSetNothing(f: Fields, line: string)
    requires !("event:" <= line) && !("id:" <= line) && !("data:" <= line)
    ensures AddField(f, line) == f
  {
    hide Trim, TrimStart;
  }

  /** A frame in front of any text is delivered first, and the rest as if it had come alone. */
  lemma {:induction false} FrameComesFirst(f: Frame, rest: string)
    requires CleanFrame(f)
    ensures Received(Encode(f) + rest) == [Delivered(f)] + Received(rest)
  {
    hide SplitBlocks, ParseBlock, Encode, Delivered, CleanFrame, Join, FrameLines, Trim;
    FrameIsDelivered(f, rest);
    ParsedParts([Join(FrameLines(f), "\n")], SplitBlocks(rest));
    hide ParseBlocks;
    assert ParseBlocks([Join(FrameLines(f), "\n")]) == [Delivered(f)] by { OneBlock(Join(FrameLines(f), "\n")); }
  }

  lemma OneBlock(raw: string)
    ensures ParseBlocks([raw]) == [ParseBlock(raw)] && ParseBlocks([]) == []
  {
    hide ParseBlock;
  }

  /** A last frame without its blank line is delivered as well when the connection ends. */
  lemma {:induction false} UnfinishedFrameArrives(frames: seq<Frame>, f: Frame)
    requires CleanFrame(f) && forall g | g in frames :: CleanFrame(g)
    ensures Received(EncodeAll(frames) + Join(FrameLines(f), "\n")) == DeliveredAll(frames + [f])
  {
    hide Received, Encode, Delivered, CleanFrame, Join, FrameLines;
    var body := Join(FrameLines(f), "\n");
    DeliveredCons(frames + [f]);
    if frames == [] {
      OneBlockArrives(f);
      assert EncodeAll([]) + body == body && ([] + [f])[1..] == [];
    } else {
      var rest := EncodeAll(frames[1..]) + body;
      UnfinishedFrameArrives(frames[1..], f);
      FrameComesFirst(frames[0], rest);
      assert EncodeAll(frames) + body == Encode(frames[0]) + rest;
      assert (frames + [f])[1..] == frames[1..] + [f];
    }
  }

  lemma OneBlockArrives(f: Frame)
    requires CleanFrame(f)
    ensures Received(Join(FrameLines(f), "\n")) == [Delivered(f)]
  {
    hide SplitBlocks, ParseBlock, ParseBlocks, Delivered, CleanFrame, Join, FrameLines, Trim;
    var body := Join(FrameLines(f), "\n");
    FrameIsOneBlock(f);
    OneBlock(body);
    assert Init([body]) == [];
  }

  lemma DeliveredCons(frames: seq<Frame>)
    requires frames != []
    ensures DeliveredAll(frames) == [Delivered(frames[0])] + DeliveredAll(frames[1..])
  {
    hide Delivered;
  }

  /** The lines of a frame are one block that is not blank. */
  lemma FrameIsOneBlock(f: Frame)
    requires CleanFrame(f)
    ensures var body := Join(FrameLines(f), "\n");
            SplitBlocks(body) == [body] && Trim(body, IsJsSpace) != "" && ParseBlock(body) == Delivered(f)
  {
    hide FrameLines, Encode, FindBlank, BlankAt, Join, AddFields, SplitFields, DataLines, Trim;
    assert FrameLines(f) != [] by { AtLeastOneLine(f); }
    FrameLinesAreUnbroken(f);
    JoinedLinesAreSolid(FrameLines(f));
    var body := Join(FrameLines(f), "\n");
    SolidIsOneBlock(body, 0);
    FrameIsDelivered(f, "");
    StartsSolid(f);
    NotBlank(body, 0, IsJsSpace);
  }

  lemma StartsSolid(f: Frame)
    ensures Join(FrameLines(f), "\n") != "" && !IsJsSpace(Join(FrameLines(f), "\n")[0])
  {
    hide DataLines;
    var lines := FrameLines(f);
    assert lines[0] != "" && lines[0][0] in "ie";
    assert Join(lines, "\n")[0] == lines[0][0];
  }

  lemma {:induction false} SolidIsOneBlock(s: string, i: nat)
    requires Solid(s) && i <= |s|
    ensures FindBlank(s, i) == |s|
    decreases |s| - i
  {
    if i < |s| {
      SolidIsOneBlock(s, i + 1);
    }
  }

  // ---------------------------------------------------------------- carriage returns

  /** The text with a carriage return before every line feed. */
  function Crlf(s: string): (t: string)
    ensures t == "" <==> s == ""
  {
    if s == "" then "" else (if s[0] == '\n' then "\r\n" else [s[0]]) + Crlf(s[1..])
  }

  function CrlfAll(parts: seq<string>): (r: seq<string>)
    ensures |r| == |parts| && forall i | 0 <= i < |r| :: r[i] == Crlf(parts[i])
  {
    seq(|parts|, i requires 0 <= i < |parts| => Crlf(parts[i]))
  }

  lemma {:induction false} CrlfAppend(a: string, b: string)
    ensures Crlf(a + b) == Crlf(a) + Crlf(b)
  {
    if a == "" {
      assert a + b == b;
    } else {
      assert (a + b)[1..] == a[1..] + b;
      CrlfAppend(a[1..], b);
    }
  }

  lemma BlankAtInSuffix(s: string, i: nat, j: nat)
    requires i <= j <= |s|
    ensures BlankAt(s, j) == BlankAt(s[i..], j - i)
  {
    assert forall k | i <= k < |s| :: s[i..][k - i] == s[k];
  }

  /** Matches and breaks of a suffix are those of the text, shifted. */
  lemma {:induction false} FindBlankInSuffix(s: string, i: nat, j: nat)
    requires i <= j <= |s|
    ensures BlankAt(s, j) == BlankAt(s[i..], j - i) && FindBlank(s, j) == i + FindBlank(s[i..], j - i)
    decreases |s| - j
  {
    hide BlankAt;
    BlankAtInSuffix(s, i, j);
    if j < |s| {
      FindBlankInSuffix(s, i, j + 1);
    }
  }

  /** One character of the text, and what it becomes. */
  lemma {:induction false} CrlfStep(s: string)
    requires s != ""
    ensures s[0] == '\n' ==> |Crlf(s)| >= 2 && Crlf(s)[0] == '\r' && Crlf(s)[1] == '\n' && Crlf(s)[2..] == Crlf(s[1..])
    ensures s[0] != '\n' ==> Crlf(s)[0] == s[0] && Crlf(s)[1..] == Crlf(s[1..])
  {
  }

  /** The blank line of the longer text stands where that of the text does, and is twice as long. */
  lemma {:induction false} CrlfBlank(s: string)
    requires '\r' !in s
    ensures var k := FindBlank(s, 0);
            && FindBlank(Crlf(s), 0) == |Crlf(s[..k])|
            && (k < |s| ==> BlankAt(s, k) == 2 && BlankAt(Crlf(s), |Crlf(s[..k])|) == 4)
    decreases |s|
  {
    hide BlankAt, FindBlank, Crlf;
    if s == "" {
      NoBlankInNothing();
    } else if s[0] == '\n' && |s| > 1 && s[1] == '\n' {
      BlankAtStart(s);
      assert s[..0] == "";
    } else {
      var rest := s[1..];
      CrlfBlank(rest);
      var k := FindBlank(rest, 0);
      SkipsStart(s);
      CrlfStep(s[..k + 1]);
      assert s[..k + 1][1..] == rest[..k] && s[..k + 1][0] == s[0];
      assert |Crlf(s[..k + 1])| == (if s[0] == '\n' then 2 else 1) + |Crlf(rest[..k])|;
      CrlfIsLonger(rest, k);
    }
  }

  lemma {:induction false} CrlfIsLonger(s: string, k: nat)
    requires k <= |s|
    ensures |Crlf(s[..k])| <= |Crlf(s)|
  {
    CrlfAppend(s[..k], s[k..]);
    assert s[..k] + s[k..] == s;
  }

  lemma NoBlankInNothing()
    ensures FindBlank("", 0) == 0 && Crlf("") == ""
  {
  }

  lemma {:induction false} BlankAtStart(s: string)
    requires |s| > 1 && s[0] == '\n' && s[1] == '\n'
    ensures FindBlank(s, 0) == 0 && BlankAt(s, 0) == 2 && FindBlank(Crlf(s), 0) == 0 && BlankAt(Crlf(s), 0) == 4
  {
    CrlfStep(s);
    CrlfStep(s[1..]);
    hide Crlf;
  }

  /** A text that does not start with a blank line. */
  lemma {:induction false} NoBlankAtStart(s: string)
    requires s != "" && '\r' !in s && !(s[0] == '\n' && |s| > 1 && s[1] == '\n')
    ensures BlankAt(s, 0) == 0 && BlankAt(Crlf(s), 0) == 0
    ensures s[0] == '\n' ==> BlankAt(Crlf(s), 1) == 0
  {
    CrlfStep(s);
    assert s[0] in s;
    if |s| > 1 {
      assert s[1] in s && s[1..][0] == s[1];
      CrlfStep(s[1..]);
      assert s[0] == '\n' ==> Crlf(s)[2] == Crlf(s[1..])[0];
    } else {
      assert Crlf(s[1..]) == "";
    }
    hide Crlf;
  }

  lemma {:induction false} SkipsStart(s: string)
    requires s != "" && '\r' !in s && !(s[0] == '\n' && |s| > 1 && s[1] == '\n')
    ensures var rest, width := s[1..], if s[0] == '\n' then 2 else 1;
            && FindBlank(s, 0) == 1 + FindBlank(rest, 0)
            && BlankAt(s, 1 + FindBlank(rest, 0)) == BlankAt(rest, FindBlank(rest, 0))
            && |Crlf(s)| == width + |Crlf(rest)|
            && FindBlank(Crlf(s), 0) == width + FindBlank(Crlf(rest), 0)
            && forall j | 0 <= j <= |Crlf(rest)| :: BlankAt(Crlf(s), width + j) == BlankAt(Crlf(rest), j)
  {
    hide BlankAt, Crlf;
    var rest, width, t := s[1..], if s[0] == '\n' then 2 else 1, Crlf(s);
    NoBlankAtStart(s);
    CrlfStep(s);
    FindBlankInSuffix(s, 1, 1);
    FindBlankInSuffix(t, width, width);
    assert t[width..] == Crlf(rest);
    assert FindBlank(s, 0) == FindBlank(s, 1) && FindBlank(t, 0) == FindBlank(t, width);
    hide FindBlank;
    BlankAtInSuffix(s, 1, 1 + FindBlank(rest, 0));
    forall j | 0 <= j <= |Crlf(rest)| ensures BlankAt(t, width + j) == BlankAt(Crlf(rest), j) {
      BlankAtInSuffix(t, width, width + j);
    }
  }

  lemma {:induction false} CrlfBlocks(s: string)
    requires '\r' !in s
    ensures SplitBlocks(Crlf(s)) == CrlfAll(SplitBlocks(s))
    decreases |s|
  {
    hide FindBlank, BlankAt, Crlf;
    var k, t := FindBlank(s, 0), Crlf(s);
    CrlfBlank(s);
    CrlfAppend(s[..k], s[k..]);
    assert s == s[..k] + s[k..];
    if k < |s| {
      var rest := s[k + 2..];
      assert s[k..k + 2] == "\n\n" by { BlankIsTwoFeeds(s, k); }
      CrlfAppend("\n\n", rest);
      assert s[k..] == "\n\n" + rest;
      assert Crlf("\n\n") == "\r\n\r\n" by { TwoFeeds(); }
      assert t[..|Crlf(s[..k])|] == Crlf(s[..k]) && t[|Crlf(s[..k])| + 4..] == Crlf(rest);
      CrlfBlocks(rest);
    } else {
      assert s[..k] == s && Crlf(s[k..]) == "";
    }
  }

  lemma BlankIsTwoFeeds(s: string, k: nat)
    requires k < |s| && '\r' !in s && BlankAt(s, k) == 2
    ensures s[k..k + 2] == "\n\n"
  {
    assert s[k] in s && s[k + 1] in s;
  }

  lemma TwoFeeds()
    ensures Crlf("\n\n") == "\r\n\r\n"
  {
    assert "\n\n"[1..] == "\n" && "\n"[1..] == "";
    assert Crlf("\n") == "\r\n";
  }

  /** What the first line of the text says about that of the longer one. */
  ghost predicate SameLine(s: string, t: string, k: nat) {
    && k <= |s| && k <= |t| && t[..k] == s[..k]
    && (k < |s| ==> k + 2 <= |t| && t[k] == '\r' && s[k] == '\n' && t[k + 2..] == Crlf(s[k + 1..]))
    && (k == |s| ==> t == s)
  }

  lemma SameLineLonger(s: string, t: string, k: nat)
    requires s != "" && t != "" && s[0] == t[0] && SameLine(s[1..], t[1..], k)
    ensures SameLine(s, t, k + 1)
  {
    hide Crlf;
    assert t == [t[0]] + t[1..] && s == [s[0]] + s[1..];
    assert t[..k + 1] == [t[0]] + t[1..][..k] && s[..k + 1] == [s[0]] + s[1..][..k];
    if k < |s| - 1 {
      assert t[k + 3..] == t[1..][k + 2..] && s[k + 2..] == s[1..][k + 1..];
    }
  }

  lemma {:induction false} CrlfLineEnd(s: string)
    requires '\r' !in s
    ensures LineEnd(Crlf(s)) == LineEnd(s) && SameLine(s, Crlf(s), LineEnd(s))
  {
    if s != "" {
      assert s[0] in s;
      CrlfStep(s);
      var t := Crlf(s);
      hide Crlf;
      if s[0] == '\n' {
        assert LineEnd(s) == 0 && LineEnd(t) == 0;
      } else {
        CrlfLineEnd(s[1..]);
        SameLineLonger(s, t, LineEnd(s[1..]));
        hide SameLine;
        assert LineEnd(s) == LineEnd(s[1..]) + 1 && LineEnd(t) == LineEnd(t[1..]) + 1;
      }
    }
  }

  lemma {:induction false} CrlfFields(s: string)
    requires '\r' !in s
    ensures SplitFields(Crlf(s)) == SplitFields(s)
    decreases |s|
  {
    hide LineEnd, Crlf;
    CrlfLineEnd(s);
    var k := LineEnd(s);
    if k < |s| {
      CrlfFields(s[k + 1..]);
    }
  }

  lemma {:induction false} CrlfStaysBlank(s: string)
    requires '\r' !in s
    ensures Trim(Crlf(s), IsJsSpace) == "" <==> Trim(s, IsJsSpace) == ""
  {
    hide Trim;
    BlankExactly(s, IsJsSpace);
    BlankExactly(Crlf(s), IsJsSpace);
    CrlfSpaces(s);
  }

  predicate Blank(s: string) {
    forall i | 0 <= i < |s| :: IsJsSpace(s[i])
  }

  lemma BlankStep(s: string)
    requires s != ""
    ensures Blank(s) <==> IsJsSpace(s[0]) && Blank(s[1..])
  {
    hide IsJsSpace;
    assert forall i | 1 <= i < |s| :: s[i] == s[1..][i - 1];
  }

  lemma {:induction false} CrlfSpaces(s: string)
    ensures Blank(Crlf(s)) <==> Blank(s)
  {
    if s != "" {
      var t := Crlf(s);
      CrlfSpaces(s[1..]);
      CrlfStep(s);
      BlankStep(s);
      BlankStep(t);
      if s[0] == '\n' {
        BlankStep(t[1..]);
        assert t[1..][1..] == t[2..];
      }
      hide Blank, Crlf;
    }
  }

  lemma {:induction false} PartsHaveNoReturn(s: string)
    requires '\r' !in s
    ensures forall p | p in SplitBlocks(s) :: '\r' !in p
    decreases |s|
  {
    hide FindBlank, BlankAt;
    var k := FindBlank(s, 0);
    if k < |s| {
      PartsHaveNoReturn(s[k + BlankAt(s, k)..]);
    }
  }

  /** A server that ends its lines with carriage return and line feed is understood in the same way. */
  lemma {:induction false} CrlfReadsAlike(text: string)
    requires '\r' !in text
    ensures Received(Crlf(text)) == Received(text)
  {
    hide SplitBlocks, Crlf, SplitFields, AddFields, Trim, Join;
    CrlfBlocks(text);
    PartsHaveNoReturn(text);
    var parts := SplitBlocks(text);
    forall i | 0 <= i < |parts| ensures ParseBlock(Crlf(parts[i])) == ParseBlock(parts[i]) {
      assert parts[i] in parts;
      CrlfFields(parts[i]);
    }
    assert Last(parts) in parts;
    CrlfStaysBlank(Last(parts));
    assert ParseBlocks(Init(CrlfAll(parts))) == ParseBlocks(Init(parts));
  }
}
