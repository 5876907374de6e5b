/** What the batch meaning of an event stream says: which event a block becomes, and that
    reading undoes writing. */
module SseMeaning {
  import opened Protocol
  import opened ProviderEvents
  import opened SseSpec

  // ---------------------------------------------------------------- events say what their bodies say

  const ENDING_TYPES: set<string> := {"response.completed", "response.failed", "response.incomplete"}

  ghost predicate IsJsonText(ctx: Context, body: Json) {
    exists text :: ctx.codec.json(text) == Some(body)
  }

  /** The event is what a body of its type stands for. */
  ghost predicate SaysItsType(ctx: Context, event: ProviderEvent) {
    match event
    case Append(status, body) =>
      && status == ctx.status && IsJsonText(ctx, body)
      && (ctx.path.Responses? ==> ctx.codec.typeOf(body).Some? && ctx.codec.typeOf(body).value !in ENDING_TYPES)
    case Completed(status, None) => status == ctx.status && ctx.path.ChatCompletions?
    case Completed(status, Some(body)) =>
      && status == ctx.status && ctx.path.Responses? && IsJsonText(ctx, body)
      && ctx.codec.typeOf(body) == Some("response.completed")
    case Failed(status, body) =>
      && status == ctx.status && ctx.path.Responses? && IsJsonText(ctx, body)
      && (ctx.codec.typeOf(body) == Some("response.failed") || ctx.codec.typeOf(body) == Some("response.incomplete"))
    case _ => false
  }

  lemma DispatchSaysItsType(ctx: Context, block: seq<byte>)
    ensures var dispatch := Dispatched(ctx, block);
            dispatch.Yields? || dispatch.Ends? ==> SaysItsType(ctx, dispatch.event)
  {
    if ctx.codec.utf8(block).Some? {
      var buffer := DataBuffer(Lines(ctx.codec.utf8(block).value));
      if buffer != "" {
        var value := buffer[..|buffer| - 1];
        assert ctx.codec.json(value).Some? ==> IsJsonText(ctx, ctx.codec.json(value).value);
      }
    }
  }

  /** Whatever is read, every event says what the "type" of its body says. */
  lemma {:induction false} EventsSayTheirType(ctx: Context, s: seq<byte>, end: Ending)
    ensures forall event :: event in ReadBlocks(ctx, s, end).events ==> SaysItsType(ctx, event)
    decreases |s|
  {
    var k := BlockEnd(s);
    if 0 < k <= ctx.limit {
      EventsSayTheirType(ctx, s[k..], end);
      DispatchSaysItsType(ctx, s[..k]);
    }
  }

  // ---------------------------------------------------------------- writing an event stream

  /** One character in UTF-8 (section 3 of RFC 3629). */
  function Utf8(c: char): (bytes: seq<byte>)
    ensures bytes != [] && (c as int < 128 ==> bytes == [c as int])
    ensures c as int >= 128 ==> forall i :: 0 <= i < |bytes| ==> bytes[i] >= 128
    ensures bytes[0] == 0xEF ==> |bytes| == 3
  {
    var n := c as int;
    if n < 0x80 then [n]
    else if n < 0x800 then [0xC0 + n / 0x40, 0x80 + n % 0x40]
    else if n < 0x1_0000 then [0xE0 + n / 0x1000, 0x80 + n / 0x40 % 0x40, 0x80 + n % 0x40]
    else [0xF0 + n / 0x4_0000, 0x80 + n / 0x1000 % 0x40, 0x80 + n / 0x40 % 0x40, 0x80 + n % 0x40]
  }

  function Encoded(text: string): (bytes: seq<byte>)
    decreases |text|
  {
    if text == "" then [] else Utf8(text[0]) + Encoded(text[1..])
  }

  /** Text whose lines end with line feeds alone. */
  predicate IsPlain(text: string) {
    forall i :: 0 <= i < |text| ==> text[i] != '\r'
  }

  predicate IsOneLine(line: string) {
    IsPlain(line) && forall i :: 0 <= i < |line| ==> line[i] != '\n'
  }

  /** A line of an event: a piece of its data, an empty piece without the colon, or a line
      that says nothing about the data: a comment, or a field of another name. */
  datatype Line = Data(text: string) | BareData | Note(text: string)

  /** How a server writes its stream: with or without a space after the colon and a byte order
      mark, and with one of three line ends. */
  datatype LineEnd = EndsLf | EndsCrLf | EndsCr
  datatype Style = Style(space: bool, lineEnd: LineEnd, mark: bool)

  function LineText(line: Line, space: bool): string {
    match line
    case Data(text) => if space then "data: " + text else "data:" + text
    case BareData => "data"
    case Note(text) => text
  }

  predicate IsWritable(line: Line, space: bool) {
    match line
    case Data(text) => IsOneLine(text) && (!space && text != "" ==> text[0] != ' ')
    case BareData => true
    case Note(text) => IsOneLine(text) && text != "" && text != "data" && !("data:" <= text)
  }

  predicate AreWritable(lines: seq<Line>, space: bool)
    decreases |lines|
  {
    lines != [] ==> IsWritable(lines[0], space) && AreWritable(lines[1..], space)
  }

  /** The lines of one event, as text. */
  function LinesText(lines: seq<Line>, space: bool): string
    decreases |lines|
  {
    if lines == [] then "" else LineText(lines[0], space) + "\n" + LinesText(lines[1..], space)
  }

  /** One event; the blank line ends it. */
  function EventText(lines: seq<Line>, space: bool): string {
    LinesText(lines, space) + "\n"
  }

  function StreamText(events: seq<seq<Line>>, space: bool): string
    decreases |events|
  {
    if events == [] then "" else EventText(events[0], space) + StreamText(events[1..], space)
  }

  /** The pieces of data in an event. */
  function Pieces(lines: seq<Line>): seq<string>
    decreases |lines|
  {
    if lines == [] then []
    else
      (match lines[0]
       case Data(text) => [text]
       case BareData => [""]
       case Note(_) => []) + Pieces(lines[1..])
  }

  /** Its data: the pieces, with line feeds between them. */
  function Joined(pieces: seq<string>): string
    requires pieces != []
    decreases |pieces|
  {
    if |pieces| == 1 then pieces[0] else pieces[0] + "\n" + Joined(pieces[1..])
  }

  function WithLineEnds(text: string, lineEnd: LineEnd): seq<byte>
    decreases |text|
  {
    if text == "" then []
    else
      var rest := WithLineEnds(text[1..], lineEnd);
      if text[0] != '\n' then Utf8(text[0]) + rest
      else
        match lineEnd
        case EndsLf => [LF] + rest
        case EndsCrLf => [CR, LF] + rest
        case EndsCr => [CR] + rest
  }

  function Written(style: Style, text: string): seq<byte> {
    (if style.mark then BOM else []) + WithLineEnds(text, style.lineEnd)
  }

  const MARK: char := '\U{FEFF}'

  /** What is written has the three bytes the reader waits for, and what looks like a byte order
      mark is one. */
  predicate IsStream(style: Style, text: string) {
    |Written(style, text)| >= 3 && (style.mark || (text != "" && text[0] != MARK))
  }

  // ---------------------------------------------------------------- reading it: line ends and the mark

  lemma {:induction false} NormalizedKeeps(bytes: seq<byte>, rest: seq<byte>)
    requires forall i :: 0 <= i < |bytes| ==> bytes[i] != CR
    ensures Normalized(bytes + rest) == bytes + Normalized(rest)
    decreases |bytes|
  {
    if bytes == [] {
      assert bytes + rest == rest;
    } else {
      NormalizedKeeps(bytes[1..], rest);
      assert (bytes + rest)[1..] == bytes[1..] + rest;
    }
  }

  lemma LineEndNormalized(lineEnd: LineEnd, rest: seq<byte>)
    requires lineEnd.EndsCr? && rest != [] ==> rest[0] != LF
    ensures Normalized((match lineEnd case EndsLf => [LF] case EndsCrLf => [CR, LF] case EndsCr => [CR]) + rest)
            == [LF] + Normalized(rest)
  {
    match lineEnd
    case EndsLf => NormalizedKeeps([LF], rest);
    case EndsCrLf => assert ([CR, LF] + rest)[2..] == rest;
    case EndsCr => assert ([CR] + rest)[1..] == rest;
  }

  lemma {:induction false} LineEndsNormalized(text: string, lineEnd: LineEnd)
    requires IsPlain(text)
    ensures Normalized(WithLineEnds(text, lineEnd)) == Encoded(text)
    ensures lineEnd.EndsCr? && text != "" ==> WithLineEnds(text, lineEnd)[0] != LF
    decreases |text|
  {
    if text != "" {
      LineEndsNormalized(text[1..], lineEnd);
      var rest := WithLineEnds(text[1..], lineEnd);
      if text[0] == '\n' {
        LineEndNormalized(lineEnd, rest);
      } else {
        NormalizedKeeps(Utf8(text[0]), rest);
      }
    }
  }

  /** Only U+FEFF is written as the byte order mark. */
  lemma MarkIsBom(c: char, rest: seq<byte>)
    requires |Utf8(c) + rest| >= 3 && (Utf8(c) + rest)[..3] == BOM
    ensures c == MARK
  {
    var bytes := Utf8(c);
    assert bytes[0] == (bytes + rest)[..3][0] == 0xEF;
    assert bytes[1] == (bytes + rest)[..3][1] && bytes[2] == (bytes + rest)[..3][2];
  }

  lemma OtherIsNoBom(c: char, rest: seq<byte>)
    requires c != MARK && |Utf8(c) + rest| >= 3
    ensures (Utf8(c) + rest)[..3] != BOM
  {
    if (Utf8(c) + rest)[..3] == BOM {
      MarkIsBom(c, rest);
    }
  }

  lemma WrittenContent(style: Style, text: string)
    requires IsPlain(text) && IsStream(style, text)
    ensures Normalized(Content(Written(style, text))) == Encoded(text)
  {
    var bytes := WithLineEnds(text, style.lineEnd);
    LineEndsNormalized(text, style.lineEnd);
    if style.mark {
      assert (BOM + bytes)[..3] == BOM && (BOM + bytes)[3..] == bytes;
    } else {
      assert [] + bytes == bytes;
      if text[0] == '\n' {
        assert bytes[..3][0] == bytes[0] < 128;
      } else {
        OtherIsNoBom(text[0], WithLineEnds(text[1..], style.lineEnd));
      }
    }
  }

  // ---------------------------------------------------------------- reading it: one block

  lemma {:induction false} LinesSplit(line: string, rest: string)
    requires forall i :: 0 <= i < |line| ==> line[i] != '\n'
    ensures Lines(line + "\n" + rest) == [line] + Lines(rest)
    decreases |line|
  {
    var text := line + "\n" + rest;
    if line == "" {
      assert text[1..] == rest;
    } else {
      LinesSplit(line[1..], rest);
      assert text[1..] == line[1..] + "\n" + rest;
      assert [line[0]] + line[1..] == line;
    }
  }

  function LinesOf(lines: seq<Line>, space: bool): seq<string>
    decreases |lines|
  {
    if lines == [] then [] else [LineText(lines[0], space)] + LinesOf(lines[1..], space)
  }

  lemma LineIsOneLine(line: Line, space: bool)
    requires IsWritable(line, space)
    ensures IsOneLine(LineText(line, space)) && LineText(line, space) != ""
  {
  }

  lemma {:induction false} LinesOfEvent(lines: seq<Line>, space: bool)
    requires AreWritable(lines, space)
    ensures Lines(EventText(lines, space)) == LinesOf(lines, space) + ["", ""]
    decreases |lines|
  {
    if lines == [] {
      assert EventText(lines, space) == "\n";
      assert "\n"[1..] == "";
    } else {
      LinesOfEvent(lines[1..], space);
      LineIsOneLine(lines[0], space);
      LinesSplit(LineText(lines[0], space), EventText(lines[1..], space));
      assert EventText(lines, space) == LineText(lines[0], space) + "\n" + EventText(lines[1..], space);
    }
  }

  /** What one line adds to the data. */
  function DataOf(line: string): string {
    if FieldName(line) == "data" then FieldValue(line) + "\n" else ""
  }

  lemma BufferOfMore(lines: seq<string>, line: string)
    ensures DataBuffer(lines + [line]) == DataBuffer(lines) + DataOf(line)
  {
    assert (lines + [line])[..|lines + [line]| - 1] == lines;
  }

  lemma JoinedText(a: string, b: string, c: string)
    ensures (a + b) + c == a + (b + c)
  {
  }

  lemma BufferOfMoreBoth(a: seq<string>, b: seq<string>, line: string)
    requires DataBuffer(a + b) == DataBuffer(a) + DataBuffer(b)
    ensures DataBuffer(a + (b + [line])) == DataBuffer(a) + DataBuffer(b + [line])
  {
    assert a + (b + [line]) == (a + b) + [line];
    BufferOfMore(a + b, line);
    BufferOfMore(b, line);
    JoinedText(DataBuffer(a), DataBuffer(b), DataOf(line));
  }

  lemma {:induction false} BufferOfBoth(a: seq<string>, b: seq<string>)
    ensures DataBuffer(a + b) == DataBuffer(a) + DataBuffer(b)
    decreases |b|
  {
    if b == [] {
      assert a + b == a;
    } else {
      var most := b[..|b| - 1];
      BufferOfBoth(a, most);
      BufferOfMoreBoth(a, most, b[|b| - 1]);
      assert b == most + [b[|b| - 1]];
    }
  }

  lemma BufferOfLine(line: string)
    ensures DataBuffer([line]) == DataOf(line)
  {
    BufferOfMore([], line);
    assert [] + [line] == [line];
  }

  lemma ColonAt(line: string, k: nat)
    requires k < |line| && line[k] == ':' && forall j :: 0 <= j < k ==> line[j] != ':'
    ensures Colon(line) == k
  {
  }

  lemma DataLineIsRead(line: Line, space: bool)
    requires IsWritable(line, space) && line.Data?
    ensures DataOf(LineText(line, space)) == line.text + "\n"
  {
    var text := LineText(line, space);
    ColonAt(text, 4);
    assert text[..4] == "data";
    if space {
      assert text[5..] == " " + line.text;
      assert (" " + line.text)[1..] == line.text;
    } else {
      assert text[5..] == line.text;
    }
  }

  lemma BareDataIsRead()
    ensures DataOf("data") == "\n"
  {
    NoColon("data");
    assert "data"[..4] == "data";
  }

  lemma NoColon(line: string)
    requires forall i :: 0 <= i < |line| ==> line[i] != ':'
    ensures Colon(line) == |line|
  {
  }

  lemma DataFieldLine(text: string)
    requires FieldName(text) == "data"
    ensures text == "data" || "data:" <= text
  {
    var k := Colon(text);
    assert k == 4;
    if k < |text| {
      assert text[..5] == text[..4] + [text[4]];
    } else {
      assert text == text[..4];
    }
  }

  /** A comment, or another field, adds nothing. */
  lemma NoteSaysNothing(text: string)
    requires text != "data" && !("data:" <= text)
    ensures DataOf(text) == ""
  {
    if FieldName(text) == "data" {
      DataFieldLine(text);
    }
  }

  /** The data buffer of these pieces. */
  function Buffered(pieces: seq<string>): string {
    if pieces == [] then "" else Joined(pieces) + "\n"
  }

  lemma LineIsRead(line: Line, space: bool, others: seq<string>)
    requires IsWritable(line, space)
    ensures DataOf(LineText(line, space)) + Buffered(others) == Buffered(Pieces([line]) + others)
  {
    match line
    case Data(text) => DataLineIsRead(line, space); PieceFirst(text, others);
    case BareData => BareDataIsRead(); PieceFirst("", others);
    case Note(text) => NoteSaysNothing(text); assert [] + others == others;
  }

  lemma PieceFirst(piece: string, others: seq<string>)
    ensures piece + "\n" + Buffered(others) == Buffered([piece] + others)
  {
    assert ([piece] + others)[1..] == others;
  }

  lemma {:induction false} BufferOfLines(lines: seq<Line>, space: bool)
    requires AreWritable(lines, space)
    ensures DataBuffer(LinesOf(lines, space)) == Buffered(Pieces(lines))
    decreases |lines|
  {
    if lines != [] {
      BufferOfLines(lines[1..], space);
      BufferOfBoth([LineText(lines[0], space)], LinesOf(lines[1..], space));
      BufferOfLine(LineText(lines[0], space));
      LineIsRead(lines[0], space, Pieces(lines[1..]));
      assert Pieces([lines[0]]) + Pieces(lines[1..]) == Pieces(lines);
    }
  }

  /** The data buffer of a written event is its data, and a line feed. */
  lemma EventIsRead(lines: seq<Line>, space: bool)
    requires AreWritable(lines, space)
    ensures DataBuffer(Lines(EventText(lines, space))) == Buffered(Pieces(lines))
  {
    LinesOfEvent(lines, space);
    BufferOfLines(lines, space);
    BufferOfBoth(LinesOf(lines, space), ["", ""]);
    BlankLinesSayNothing();
  }

  lemma BlankLinesSayNothing()
    ensures DataBuffer(["", ""]) == ""
  {
    BufferOfBoth([""], [""]);
    BufferOfLine("");
    assert ["", ""] == [""] + [""];
  }

  // ---------------------------------------------------------------- reading it: block after block

  lemma AppendNoEnd(a: seq<byte>, b: seq<byte>)
    requires NoBlockEnd(a, |a|) && NoBlockEnd(b, |b|)
    ensures NoBlockEnd(a + b, |a + b|)
  {
    var s := a + b;
    forall j: nat | j <= |s| ensures !IsBlockEnd(s, j) {
      if j <= |a| {
        assert !IsBlockEnd(a, j);
        assert j >= 1 ==> s[j - 1] == a[j - 1];
        assert j >= 2 ==> s[j - 2] == a[j - 2];
      } else {
        assert !IsBlockEnd(b, 1) && !IsBlockEnd(b, j - |a|);
        assert s[j - 1] == b[j - 1 - |a|];
        assert j - 2 >= |a| ==> s[j - 2] == b[j - 2 - |a|];
      }
    }
  }

  lemma {:induction false} LineHasNoFeed(line: string)
    requires IsOneLine(line)
    ensures forall i :: 0 <= i < |Encoded(line)| ==> Encoded(line)[i] != LF
    ensures line != "" ==> Encoded(line) != []
    decreases |line|
  {
    if line != "" {
      LineHasNoFeed(line[1..]);
    }
  }

  lemma LineHasNoEnd(line: string)
    requires IsOneLine(line) && line != ""
    ensures NoBlockEnd(Encoded(line + "\n"), |Encoded(line + "\n")|) && Encoded(line + "\n")[|Encoded(line + "\n")| - 1] == LF
  {
    LineHasNoFeed(line);
    EncodedBoth(line, "\n");
    FeedIsEncoded();
  }

  lemma FeedIsEncoded()
    ensures Encoded("\n") == [LF]
  {
    assert "\n"[1..] == "";
  }

  lemma {:induction false} EncodedBoth(a: string, b: string)
    ensures Encoded(a + b) == Encoded(a) + Encoded(b)
    decreases |a|
  {
    if a == "" {
      assert a + b == b;
    } else {
      EncodedBoth(a[1..], b);
      assert (a + b)[1..] == a[1..] + b;
    }
  }

  lemma PlainBoth(a: string, b: string)
    requires IsPlain(a) && IsPlain(b)
    ensures IsPlain(a + b)
  {
  }

  lemma {:induction false} LinesHaveNoEnd(lines: seq<Line>, space: bool)
    requires AreWritable(lines, space)
    ensures IsPlain(LinesText(lines, space))
    ensures var bytes := Encoded(LinesText(lines, space));
            NoBlockEnd(bytes, |bytes|) && (lines != [] ==> bytes != [] && bytes[|bytes| - 1] == LF)
    decreases |lines|
  {
    if lines != [] {
      var first, others := LineText(lines[0], space) + "\n", LinesText(lines[1..], space);
      LinesHaveNoEnd(lines[1..], space);
      LineIsOneLine(lines[0], space);
      LineHasNoEnd(LineText(lines[0], space));
      PlainBoth(first, others);
      EncodedBoth(first, others);
      AppendNoEnd(Encoded(first), Encoded(others));
    }
  }

  /** The first block of a stream that begins with a written event is that event. */
  lemma EventIsABlock(lines: seq<Line>, space: bool, rest: seq<byte>)
    requires AreWritable(lines, space)
    ensures IsPlain(EventText(lines, space))
    ensures BlockEnd(Encoded(EventText(lines, space)) + rest) == |Encoded(EventText(lines, space))|
  {
    LinesHaveNoEnd(lines, space);
    PlainBoth(LinesText(lines, space), "\n");
    EncodedBoth(LinesText(lines, space), "\n");
    FeedIsEncoded();
    FeedEndsBlock(Encoded(LinesText(lines, space)), rest);
  }

  lemma FeedEndsBlock(data: seq<byte>, rest: seq<byte>)
    requires NoBlockEnd(data, |data|) && (data != [] ==> data[|data| - 1] == LF)
    ensures BlockEnd(data + [LF] + rest) == |data| + 1
  {
    var s, k := data + [LF] + rest, |data| + 1;
    assert IsBlockEnd(s, k);
    forall j: nat | j < k ensures !IsBlockEnd(s, j) {
      assert !IsBlockEnd(data, j);
      assert j >= 1 ==> s[j - 1] == data[j - 1];
      assert j >= 2 ==> s[j - 2] == data[j - 2];
    }
    FirstEnd(s, k);
  }

  lemma FirstEnd(s: seq<byte>, k: nat)
    requires IsBlockEnd(s, k) && forall j: nat :: j < k ==> !IsBlockEnd(s, j)
    ensures BlockEnd(s) == k
  {
    var end := BlockEnd(s);
    assert end > 0 ==> !(end < k) && !(k <= end - 1);
  }

  ghost predicate DecodesUtf8(codec: Codec) {
    forall text :: codec.utf8(Encoded(text)) == Some(text)
  }

  // ---------------------------------------------------------------- what was written

  /** The data of the event is the JSON text of `body`, and does not end the stream. */
  predicate IsAppendOf(ctx: Context, data: string, body: Json) {
    && ctx.codec.json(data) == Some(body)
    && match ctx.path
       case ChatCompletions => data != "[DONE]"
       case Responses => ctx.codec.typeOf(body).Some? && ctx.codec.typeOf(body).value !in ENDING_TYPES
  }

  /** It ends the stream with `event`. */
  predicate IsEndOf(ctx: Context, data: string, event: ProviderEvent) {
    match ctx.path
    case ChatCompletions => data == "[DONE]" && event == ProviderEvent.Completed(ctx.status, None)
    case Responses =>
      match ctx.codec.json(data)
      case None => false
      case Some(body) =>
        var kind := ctx.codec.typeOf(body);
        || (kind == Some("response.completed") && event == ProviderEvent.Completed(ctx.status, Some(body)))
        || (kind in {Some("response.failed"), Some("response.incomplete")} && event == ProviderEvent.Failed(ctx.status, body))
  }

  /** It is neither, and the call ends with an error. */
  predicate IsBrokenAs(ctx: Context, data: string, ending: Ending) {
    match ctx.codec.json(data)
    case None => !(ctx.path.ChatCompletions? && data == "[DONE]") && ending == ProviderError(60007)
    case Some(body) => ctx.path.Responses? && ctx.codec.typeOf(body).None? && ending == OtherError
  }

  predicate IsEvent(lines: seq<Line>, space: bool, limit: nat) {
    AreWritable(lines, space) && |Encoded(EventText(lines, space))| <= limit
  }

  predicate HasData(lines: seq<Line>) {
    Pieces(lines) != []
  }

  function DataText(lines: seq<Line>): string
    requires HasData(lines)
  {
    Joined(Pieces(lines))
  }

  function Appends(ctx: Context, bodies: seq<Json>): seq<ProviderEvent>
    decreases |bodies|
  {
    if bodies == [] then [] else [Append(ctx.status, bodies[0])] + Appends(ctx, bodies[1..])
  }

  /** The events are appends of these bodies, and events without data between them. */
  ghost predicate AreAppends(ctx: Context, events: seq<seq<Line>>, bodies: seq<Json>, space: bool)
    decreases |events|
  {
    if events == [] then bodies == []
    else
      && IsEvent(events[0], space, ctx.limit)
      && if HasData(events[0])
         then bodies != [] && IsAppendOf(ctx, DataText(events[0]), bodies[0]) && AreAppends(ctx, events[1..], bodies[1..], space)
         else AreAppends(ctx, events[1..], bodies, space)
  }

  // ---------------------------------------------------------------- one event

  lemma EventIsDispatched(ctx: Context, lines: seq<Line>, space: bool)
    requires DecodesUtf8(ctx.codec) && AreWritable(lines, space)
    ensures Dispatched(ctx, Encoded(EventText(lines, space)))
            == if HasData(lines) then Interpreted(ctx, DataText(lines)) else Nothing
  {
    EventIsABlock(lines, space, []);
    EventIsRead(lines, space);
    if HasData(lines) {
      var buffer := DataText(lines) + "\n";
      assert buffer[..|buffer| - 1] == DataText(lines);
    }
  }

  lemma EventIsTaken(ctx: Context, lines: seq<Line>, space: bool, rest: seq<byte>, end: Ending)
    requires DecodesUtf8(ctx.codec) && IsEvent(lines, space, ctx.limit)
    ensures ReadBlocks(ctx, Encoded(EventText(lines, space)) + rest, end)
            == Continued(if HasData(lines) then Interpreted(ctx, DataText(lines)) else Nothing, ReadBlocks(ctx, rest, end))
  {
    EventIsABlock(lines, space, rest);
    EventIsDispatched(ctx, lines, space);
    var block := Encoded(EventText(lines, space));
    assert (block + rest)[..|block|] == block && (block + rest)[|block|..] == rest;
  }

  lemma NoteIsRead(ctx: Context, lines: seq<Line>, space: bool, rest: seq<byte>, end: Ending)
    requires DecodesUtf8(ctx.codec) && IsEvent(lines, space, ctx.limit) && !HasData(lines)
    ensures ReadBlocks(ctx, Encoded(EventText(lines, space)) + rest, end) == ReadBlocks(ctx, rest, end)
  {
    EventIsTaken(ctx, lines, space, rest, end);
  }

  lemma AppendIsInterpreted(ctx: Context, data: string, body: Json)
    requires IsAppendOf(ctx, data, body)
    ensures Interpreted(ctx, data) == Yields(Append(ctx.status, body))
  {
  }

  lemma BeforeBoth(first: ProviderEvent, others: seq<ProviderEvent>, reading: Reading)
    ensures Before([first], Before(others, reading)) == Before([first] + others, reading)
  {
    assert [first] + (others + reading.events) == [first] + others + reading.events;
  }

  lemma AppendIsRead(ctx: Context, lines: seq<Line>, body: Json, space: bool, rest: seq<byte>, end: Ending)
    requires DecodesUtf8(ctx.codec) && IsEvent(lines, space, ctx.limit) && HasData(lines)
    requires IsAppendOf(ctx, DataText(lines), body)
    ensures ReadBlocks(ctx, Encoded(EventText(lines, space)) + rest, end)
            == Before([Append(ctx.status, body)], ReadBlocks(ctx, rest, end))
  {
    EventIsTaken(ctx, lines, space, rest, end);
    AppendIsInterpreted(ctx, DataText(lines), body);
  }

  lemma EndIsInterpreted(ctx: Context, data: string, final: ProviderEvent)
    requires IsEndOf(ctx, data, final)
    ensures Interpreted(ctx, data) == Ends(final)
  {
  }

  lemma BrokenIsInterpreted(ctx: Context, data: string, ending: Ending)
    requires IsBrokenAs(ctx, data, ending)
    ensures Interpreted(ctx, data) == Raises(ending)
  {
  }

  lemma EndIsRead(ctx: Context, lines: seq<Line>, space: bool, final: ProviderEvent, rest: seq<byte>, end: Ending)
    requires DecodesUtf8(ctx.codec) && IsEvent(lines, space, ctx.limit) && HasData(lines)
    requires IsEndOf(ctx, DataText(lines), final)
    ensures ReadBlocks(ctx, Encoded(EventText(lines, space)) + rest, end) == Reading([final], Terminal)
  {
    EventIsTaken(ctx, lines, space, rest, end);
    EndIsInterpreted(ctx, DataText(lines), final);
  }

  lemma BrokenIsRead(ctx: Context, lines: seq<Line>, space: bool, ending: Ending, rest: seq<byte>, end: Ending)
    requires DecodesUtf8(ctx.codec) && IsEvent(lines, space, ctx.limit) && HasData(lines)
    requires IsBrokenAs(ctx, DataText(lines), ending)
    ensures ReadBlocks(ctx, Encoded(EventText(lines, space)) + rest, end) == Reading([], ending)
  {
    EventIsTaken(ctx, lines, space, rest, end);
    BrokenIsInterpreted(ctx, DataText(lines), ending);
  }

  lemma OversizedIsRead(ctx: Context, lines: seq<Line>, space: bool, rest: seq<byte>, end: Ending)
    requires AreWritable(lines, space) && |Encoded(EventText(lines, space))| > ctx.limit
    ensures ReadBlocks(ctx, Encoded(EventText(lines, space)) + rest, end) == Reading([], ProviderError(60008))
  {
    EventIsABlock(lines, space, rest);
  }

  lemma PartIsRead(ctx: Context, lines: seq<Line>, space: bool, end: Ending)
    requires AreWritable(lines, space)
    ensures ReadBlocks(ctx, Encoded(LinesText(lines, space)), end)
            == Reading([], if |Encoded(LinesText(lines, space))| > ctx.limit then ProviderError(60008) else end)
  {
    LinesHaveNoEnd(lines, space);
  }

  // ---------------------------------------------------------------- all events

  lemma {:induction false} StreamIsPlain(ctx: Context, events: seq<seq<Line>>, bodies: seq<Json>, space: bool)
    requires AreAppends(ctx, events, bodies, space)
    ensures IsPlain(StreamText(events, space))
    decreases |events|
  {
    if events != [] {
      StreamIsPlain(ctx, events[1..], if HasData(events[0]) then bodies[1..] else bodies, space);
      EventIsABlock(events[0], space, []);
      PlainBoth(EventText(events[0], space), StreamText(events[1..], space));
    }
  }

  lemma JoinedBytes(first: string, others: string, rest: seq<byte>)
    ensures Encoded(first + others) + rest == Encoded(first) + (Encoded(others) + rest)
  {
    EncodedBoth(first, others);
  }

  lemma EventThenStream(ctx: Context, lines: seq<Line>, bodies: seq<Json>, more: seq<Json>, space: bool,
                        rest: seq<byte>, last: Reading, end: Ending)
    requires DecodesUtf8(ctx.codec) && IsEvent(lines, space, ctx.limit)
    requires if HasData(lines) then bodies != [] && IsAppendOf(ctx, DataText(lines), bodies[0]) && more == bodies[1..]
             else more == bodies
    requires ReadBlocks(ctx, rest, end) == Before(Appends(ctx, more), last)
    ensures ReadBlocks(ctx, Encoded(EventText(lines, space)) + rest, end) == Before(Appends(ctx, bodies), last)
  {
    if HasData(lines) {
      AppendIsRead(ctx, lines, bodies[0], space, rest, end);
      BeforeBoth(Append(ctx.status, bodies[0]), Appends(ctx, more), last);
    } else {
      NoteIsRead(ctx, lines, space, rest, end);
    }
  }

  lemma {:induction false} AppendsAreRead(ctx: Context, events: seq<seq<Line>>, bodies: seq<Json>, space: bool,
                                          rest: seq<byte>, last: Reading, end: Ending)
    requires DecodesUtf8(ctx.codec) && AreAppends(ctx, events, bodies, space) && ReadBlocks(ctx, rest, end) == last
    ensures ReadBlocks(ctx, Encoded(StreamText(events, space)) + rest, end) == Before(Appends(ctx, bodies), last)
    decreases |events|
  {
    if events == [] {
      assert Encoded("") + rest == rest;
    } else {
      var others := StreamText(events[1..], space);
      var more := if HasData(events[0]) then bodies[1..] else bodies;
      AppendsAreRead(ctx, events[1..], more, space, rest, last, end);
      EventThenStream(ctx, events[0], bodies, more, space, Encoded(others) + rest, last, end);
      JoinedBytes(EventText(events[0], space), others, rest);
    }
  }

  /** What follows the appends is read as it is read by itself. */
  lemma StreamIsRead(ctx: Context, style: Style, events: seq<seq<Line>>, bodies: seq<Json>, rest: string,
                     last: Reading, fails: Option<Ending>)
    requires DecodesUtf8(ctx.codec) && AreAppends(ctx, events, bodies, style.space)
    requires IsPlain(rest) && IsStream(style, StreamText(events, style.space) + rest)
    requires ReadBlocks(ctx, Encoded(rest), EndOf(fails)) == last
    ensures ReadBody(ctx, Written(style, StreamText(events, style.space) + rest), fails)
            == Before(Appends(ctx, bodies), last)
  {
    StreamIsPlain(ctx, events, bodies, style.space);
    PlainBoth(StreamText(events, style.space), rest);
    WrittenContent(style, StreamText(events, style.space) + rest);
    EncodedBoth(StreamText(events, style.space), rest);
    AppendsAreRead(ctx, events, bodies, style.space, Encoded(rest), last, EndOf(fails));
  }

  lemma EventThenMore(lines: seq<Line>, space: bool, more: string)
    requires AreWritable(lines, space) && IsPlain(more)
    ensures IsPlain(EventText(lines, space) + more)
    ensures Encoded(EventText(lines, space) + more) == Encoded(EventText(lines, space)) + Encoded(more)
  {
    EventIsABlock(lines, space, []);
    PlainBoth(EventText(lines, space), more);
    EncodedBoth(EventText(lines, space), more);
  }

  // ---------------------------------------------------------------- the round trip, and the ends that are none

  /** Reading undoes writing, in every style: a stream of events whose data are JSON texts, in
      as many pieces as they have and with other lines and events among them, closed by one that
      ends it, is read as exactly those bodies and that end, whatever follows. */
  lemma StreamRoundTrip(ctx: Context, style: Style, events: seq<seq<Line>>, bodies: seq<Json>,
                        last: seq<Line>, final: ProviderEvent, more: string, fails: Option<Ending>)
    requires DecodesUtf8(ctx.codec) && AreAppends(ctx, events, bodies, style.space)
    requires IsEvent(last, style.space, ctx.limit) && HasData(last) && IsEndOf(ctx, DataText(last), final)
    requires IsPlain(more) && IsStream(style, StreamText(events, style.space) + (EventText(last, style.space) + more))
    ensures var text := StreamText(events, style.space) + (EventText(last, style.space) + more);
            ReadBody(ctx, Written(style, text), fails) == Before(Appends(ctx, bodies), Reading([final], Terminal))
  {
    EventThenMore(last, style.space, more);
    EndIsRead(ctx, last, style.space, final, Encoded(more), EndOf(fails));
    StreamIsRead(ctx, style, events, bodies, EventText(last, style.space) + more, Reading([final], Terminal), fails);
  }

  /** Data that is no JSON, or has no type where one is needed, ends the call with an error
      after exactly the bodies before it, whatever follows. */
  lemma BrokenEventEndsTheCall(ctx: Context, style: Style, events: seq<seq<Line>>, bodies: seq<Json>,
                               last: seq<Line>, ending: Ending, more: string, fails: Option<Ending>)
    requires DecodesUtf8(ctx.codec) && AreAppends(ctx, events, bodies, style.space)
    requires IsEvent(last, style.space, ctx.limit) && HasData(last) && IsBrokenAs(ctx, DataText(last), ending)
    requires IsPlain(more) && IsStream(style, StreamText(events, style.space) + (EventText(last, style.space) + more))
    ensures var text := StreamText(events, style.space) + (EventText(last, style.space) + more);
            ReadBody(ctx, Written(style, text), fails) == Before(Appends(ctx, bodies), Reading([], ending))
  {
    EventThenMore(last, style.space, more);
    BrokenIsRead(ctx, last, style.space, ending, Encoded(more), EndOf(fails));
    StreamIsRead(ctx, style, events, bodies, EventText(last, style.space) + more, Reading([], ending), fails);
  }

  /** An event over the limit ends the call with 60008, even when nothing of it is data. */
  lemma OversizedEventEndsTheCall(ctx: Context, style: Style, events: seq<seq<Line>>, bodies: seq<Json>,
                                  last: seq<Line>, more: string, fails: Option<Ending>)
    requires DecodesUtf8(ctx.codec) && AreAppends(ctx, events, bodies, style.space)
    requires AreWritable(last, style.space) && |Encoded(EventText(last, style.space))| > ctx.limit
    requires IsPlain(more) && IsStream(style, StreamText(events, style.space) + (EventText(last, style.space) + more))
    ensures var text := StreamText(events, style.space) + (EventText(last, style.space) + more);
            ReadBody(ctx, Written(style, text), fails) == Before(Appends(ctx, bodies), Reading([], ProviderError(60008)))
  {
    EventThenMore(last, style.space, more);
    OversizedIsRead(ctx, last, style.space, Encoded(more), EndOf(fails));
    StreamIsRead(ctx, style, events, bodies, EventText(last, style.space) + more, Reading([], ProviderError(60008)), fails);
  }

  /** A stream that stops between events or in the middle of one is no success: the call ends
      as the transport does, or with 60007, and what was begun is dropped. */
  lemma UnfinishedStreamIsReported(ctx: Context, style: Style, events: seq<seq<Line>>, bodies: seq<Json>,
                                   part: seq<Line>, fails: Option<Ending>)
    requires DecodesUtf8(ctx.codec) && AreAppends(ctx, events, bodies, style.space)
    requires AreWritable(part, style.space) && IsStream(style, StreamText(events, style.space) + LinesText(part, style.space))
    ensures var text := StreamText(events, style.space) + LinesText(part, style.space);
            var ending := if |Encoded(LinesText(part, style.space))| > ctx.limit then ProviderError(60008)
                          else if fails.Some? then fails.value else ProviderError(60007);
            ReadBody(ctx, Written(style, text), fails) == Before(Appends(ctx, bodies), Reading([], ending))
  {
    LinesHaveNoEnd(part, style.space);
    PartIsRead(ctx, part, style.space, EndOf(fails));
    StreamIsRead(ctx, style, events, bodies, LinesText(part, style.space),
                 ReadBlocks(ctx, Encoded(LinesText(part, style.space)), EndOf(fails)), fails);
  }
}
