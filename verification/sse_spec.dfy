/** What a Server-Sent-Events body means, read as a whole (WHATWG HTML Living Standard,
    sections 9.2.5 and 9.2.6, with the event size bound of the Model Proxy). */
module SseSpec {
  import opened Protocol
  import opened ProviderEvents

  type byte = b: int | 0 <= b < 256

  const LF: byte := 10
  const CR: byte := 13
  const BOM: seq<byte> := [0xEF, 0xBB, 0xBF]

  const INTERRUPTED := 60007
  const TOO_LARGE := 60008

  datatype Path = ChatCompletions | Responses

  /** UTF-8 and JSON decoding of one event, and its "type" member; None where Python raises. */
  datatype Codec = Codec(utf8: seq<byte> -> Option<string>, json: string -> Option<Json>,
                         typeOf: Json -> Option<string>)

  /** How the body ends for its reader: with a terminal event, with a ProviderError, because
      the call was cancelled, or with another exception. */
  datatype Ending = Terminal | ProviderError(code: int) | Cancellation | OtherError

  datatype Reading = Reading(events: seq<ProviderEvent>, ending: Ending)

  datatype Context = Context(codec: Codec, path: Path, status: int, limit: nat)

  // ---------------------------------------------------------------- bytes to lines

  /** A byte order mark at the very start is dropped. The reader holds the first three bytes
      back until it knows, so a shorter body has no content. */
  function Content(bytes: seq<byte>): seq<byte> {
    if |bytes| < 3 then [] else if bytes[..3] == BOM then bytes[3..] else bytes
  }

  /** CRLF, CR and LF all end a line. */
  function Normalized(bytes: seq<byte>): seq<byte>
    decreases |bytes|
  {
    if bytes == [] then []
    else if bytes[0] != CR then [bytes[0]] + Normalized(bytes[1..])
    else if |bytes| > 1 && bytes[1] == LF then [LF] + Normalized(bytes[2..])
    else [LF] + Normalized(bytes[1..])
  }

  /** A blank line ends at `k`. */
  predicate IsBlockEnd(s: seq<byte>, k: nat) {
    1 <= k <= |s| && s[k - 1] == LF && (k == 1 || s[k - 2] == LF)
  }

  predicate NoBlockEnd(s: seq<byte>, k: nat) {
    forall j: nat :: j <= k ==> !IsBlockEnd(s, j)
  }

  /** The end of the first block, from `k` on; 0 when there is none. */
  function BlockEndFrom(s: seq<byte>, k: nat): (end: nat)
    requires k <= |s| && NoBlockEnd(s, k)
    ensures if end == 0 then NoBlockEnd(s, |s|) else IsBlockEnd(s, end) && NoBlockEnd(s, end - 1)
    decreases |s| - k
  {
    if k == |s| then 0 else if IsBlockEnd(s, k + 1) then k + 1 else BlockEndFrom(s, k + 1)
  }

  function BlockEnd(s: seq<byte>): (end: nat)
    ensures if end == 0 then NoBlockEnd(s, |s|) else IsBlockEnd(s, end) && NoBlockEnd(s, end - 1)
  {
    BlockEndFrom(s, 0)
  }

  // ---------------------------------------------------------------- lines to events

  function Lines(text: string): (lines: seq<string>)
    ensures lines != []
    decreases |text|
  {
    if text == "" then [""]
    else
      var rest := Lines(text[1..]);
      if text[0] == '\n' then [""] + rest else [[text[0]] + rest[0]] + rest[1..]
  }

  /** The position of the first colon, or the length of the line. */
  function Colon(line: string): (k: nat)
    ensures k <= |line| && (k < |line| ==> line[k] == ':') && forall j :: 0 <= j < k ==> line[j] != ':'
    decreases |line|
  {
    if line == "" || line[0] == ':' then 0 else 1 + Colon(line[1..])
  }

  function FieldName(line: string): string {
    line[..Colon(line)]
  }

  function FieldValue(line: string): string {
    var k := Colon(line);
    if k == |line| then ""
    else
      var value := line[k + 1..];
      if value != "" && value[0] == ' ' then value[1..] else value
  }

  /** The data buffer of the standard: every data value, followed by a line feed. */
  function DataBuffer(lines: seq<string>): string
    decreases |lines|
  {
    if lines == [] then ""
    else
      DataBuffer(lines[..|lines| - 1])
      + if FieldName(lines[|lines| - 1]) == "data" then FieldValue(lines[|lines| - 1]) + "\n" else ""
  }

  /** What one block amounts to. */
  datatype Dispatch = Nothing | Yields(event: ProviderEvent) | Ends(event: ProviderEvent) | Raises(ending: Ending)

  function Interpreted(ctx: Context, value: string): Dispatch {
    if ctx.path.ChatCompletions? && value == "[DONE]" then Ends(ProviderEvent.Completed(ctx.status, None))
    else match ctx.codec.json(value)
      case None => Raises(ProviderError(INTERRUPTED))
      case Some(body) =>
        if ctx.path.ChatCompletions? then Yields(Append(ctx.status, body))
        else match ctx.codec.typeOf(body)
          case None => Raises(OtherError)
          case Some(kind) =>
            if kind == "response.completed" then Ends(ProviderEvent.Completed(ctx.status, Some(body)))
            else if kind == "response.failed" || kind == "response.incomplete" then Ends(ProviderEvent.Failed(ctx.status, body))
            else Yields(Append(ctx.status, body))
  }

  function Dispatched(ctx: Context, block: seq<byte>): Dispatch {
    match ctx.codec.utf8(block)
    case None => Raises(ProviderError(INTERRUPTED))
    case Some(text) =>
      var buffer := DataBuffer(Lines(text));
      if buffer == "" then Nothing else Interpreted(ctx, buffer[..|buffer| - 1])
  }

  // ---------------------------------------------------------------- the whole body

  function Before(events: seq<ProviderEvent>, reading: Reading): Reading {
    reading.(events := events + reading.events)
  }

  /** One block's dispatch, and what the rest would add. */
  function Continued(dispatch: Dispatch, rest: Reading): Reading {
    match dispatch
    case Nothing => rest
    case Yields(event) => Before([event], rest)
    case Ends(event) => Reading([event], Terminal)
    case Raises(ending) => Reading([], ending)
  }

  /** Reading normalised text block by block; `end` is what the end of the body means. */
  function ReadBlocks(ctx: Context, s: seq<byte>, end: Ending): Reading
    decreases |s|
  {
    var k := BlockEnd(s);
    if 0 < k <= ctx.limit then
      Continued(Dispatched(ctx, s[..k]), ReadBlocks(ctx, s[k..], end))
    else if |s| > ctx.limit then Reading([], ProviderError(TOO_LARGE))
    else Reading([], end)
  }

  /** A body whose transport does not fail has to end with a terminal event. */
  function EndOf(fails: Option<Ending>): Ending {
    if fails.Some? then fails.value else ProviderError(INTERRUPTED)
  }

  /** The meaning of a body of these bytes, after which the transport may fail. */
  function ReadBody(ctx: Context, bytes: seq<byte>, fails: Option<Ending>): Reading {
    ReadBlocks(ctx, Normalized(Content(bytes)), EndOf(fails))
  }

  /** A bare line feed is an event without data. */
  lemma BareLineFeed(ctx: Context)
    requires ctx.codec.utf8([LF]) == Some("\n")
    ensures Dispatched(ctx, [LF]) == Nothing
  {
    assert Lines("\n") == ["", ""] by {
      assert "\n"[1..] == "";
    }
    assert DataBuffer(["", ""]) == "" by {
      assert ["", ""][..1] == [""];
      assert [""][..0] == [];
    }
  }

  /** Holding the first three bytes back is no loss: a shorter body says nothing anyway. */
  lemma ShortBodyMeansNothing(ctx: Context, bytes: seq<byte>, fails: Option<Ending>)
    requires |bytes| < 3 && ctx.limit >= 2 && ctx.codec.utf8([LF]) == Some("\n")
    ensures ReadBlocks(ctx, Normalized(bytes), EndOf(fails)) == ReadBody(ctx, bytes, fails)
  {
    NormalizedIsShort(bytes);
    ShortTextMeansNothing(ctx, Normalized(bytes), EndOf(fails));
    ShortTextMeansNothing(ctx, [], EndOf(fails));
  }

  lemma {:induction false} NormalizedIsShort(bytes: seq<byte>)
    ensures |Normalized(bytes)| <= |bytes|
    decreases |bytes|
  {
    if bytes != [] {
      NormalizedIsShort(bytes[1..]);
      if |bytes| > 1 {
        NormalizedIsShort(bytes[2..]);
      }
    }
  }

  lemma {:induction false} ShortTextMeansNothing(ctx: Context, s: seq<byte>, end: Ending)
    requires |s| <= 2 <= ctx.limit && ctx.codec.utf8([LF]) == Some("\n")
    ensures ReadBlocks(ctx, s, end) == Reading([], end)
    decreases |s|
  {
    var k := BlockEnd(s);
    if k > 0 {
      assert s[0] == LF && IsBlockEnd(s, 1);
      assert k == 1 && s[..1] == [LF];
      BareLineFeed(ctx);
      ShortTextMeansNothing(ctx, s[1..], end);
    }
  }

  // ---------------------------------------------------------------- the grammar of events

  /** Appends, and then, exactly when reading ended with one, a terminal event. */
  ghost predicate WellFormed(reading: Reading) {
    && Follows(true, Open, reading.events)
    && (reading.ending.Terminal? <==>
          reading.events != [] && After(reading.events[|reading.events| - 1]) == Closed)
  }

  lemma BeforeIsWellFormed(event: ProviderEvent, reading: Reading)
    requires event.Append? && WellFormed(reading)
    ensures WellFormed(Before([event], reading))
  {
    var events := [event] + reading.events;
    assert events[1..] == reading.events;
    if reading.events != [] {
      assert events[|events| - 1] == reading.events[|reading.events| - 1];
    }
  }

  lemma {:induction false} ReadingIsWellFormed(ctx: Context, s: seq<byte>, end: Ending)
    requires !end.Terminal?
    ensures WellFormed(ReadBlocks(ctx, s, end))
    decreases |s|
  {
    var k := BlockEnd(s);
    if 0 < k <= ctx.limit {
      ReadingIsWellFormed(ctx, s[k..], end);
      var dispatch := Dispatched(ctx, s[..k]);
      if dispatch.Yields? {
        BeforeIsWellFormed(dispatch.event, ReadBlocks(ctx, s[k..], end));
      }
    }
  }

  // ---------------------------------------------------------------- a whole call

  datatype JsonReading = Parsed(body: Json) | Unread(ending: Ending)

  /** A body read as one JSON value. */
  function ReadJson(ctx: Context, bytes: seq<byte>, fails: Option<Ending>): JsonReading {
    if |bytes| > ctx.limit then Unread(ProviderError(TOO_LARGE))
    else if fails.Some? then Unread(fails.value)
    else match ctx.codec.utf8(bytes)
      case None => Unread(ProviderError(INTERRUPTED))
      case Some(text) =>
        match ctx.codec.json(text)
        case None => Unread(ProviderError(INTERRUPTED))
        case Some(body) => Parsed(body)
  }

  /** What a call yields once it has the response headers. */
  function ReadCall(ctx: Context, streaming: bool, eventStream: bool, bytes: seq<byte>, fails: Option<Ending>): Reading {
    if streaming && eventStream then Before([Headers(ctx.status)], ReadBody(ctx, bytes, fails))
    else
      var head := if streaming then [Headers(ctx.status)] else [];
      match ReadJson(ctx, bytes, fails)
      case Unread(ending) => Reading(head, ending)
      case Parsed(body) =>
        Reading(head + [if streaming then ProviderEvent.Completed(ctx.status, Some(body)) else Result(ctx.status, body)],
                Terminal)
  }

  /** Every call yields events in the order its readers rely on, whatever the Provider sends,
      and it ends with a terminal event exactly when no error cut it short. */
  lemma CallIsGrammatical(ctx: Context, streaming: bool, eventStream: bool, bytes: seq<byte>, fails: Option<Ending>)
    requires fails != Some(Terminal)
    ensures var reading := ReadCall(ctx, streaming, eventStream, bytes, fails);
            && Grammatical(streaming, reading.events)
            && (reading.ending.Terminal? <==>
                  reading.events != [] && After(reading.events[|reading.events| - 1]) == Closed)
  {
    var reading := ReadCall(ctx, streaming, eventStream, bytes, fails);
    if streaming && eventStream {
      var inner := ReadBody(ctx, bytes, fails);
      ReadingIsWellFormed(ctx, Normalized(Content(bytes)), EndOf(fails));
      assert reading.events[1..] == inner.events;
      if inner.events != [] {
        assert reading.events[|reading.events| - 1] == inner.events[|inner.events| - 1];
      }
    } else if streaming && |reading.events| == 2 {
      assert reading.events[1..] == [reading.events[1]];
    }
    StagesAreTheGrammar(streaming, reading.events);
  }

  /** The codes of ProviderError. */
  predicate IsProviderCode(code: int) {
    code in {60000, 60001, 60002, 60003, 60007, 60008}
  }

  predicate EndsAsCallsDo(ending: Ending) {
    ending.ProviderError? ==> IsProviderCode(ending.code)
  }

  lemma {:induction false} BlocksEndAsCallsDo(ctx: Context, s: seq<byte>, end: Ending)
    requires EndsAsCallsDo(end)
    ensures EndsAsCallsDo(ReadBlocks(ctx, s, end).ending)
    decreases |s|
  {
    var k := BlockEnd(s);
    if 0 < k <= ctx.limit {
      BlocksEndAsCallsDo(ctx, s[k..], end);
    }
  }

  /** A call that fails reports one of the codes a transport failure has, or one of the two
      its readers add. */
  lemma CallsEndAsCallsDo(ctx: Context, streaming: bool, eventStream: bool, bytes: seq<byte>, fails: Option<Ending>)
    requires fails.Some? ==> EndsAsCallsDo(fails.value)
    ensures EndsAsCallsDo(ReadCall(ctx, streaming, eventStream, bytes, fails).ending)
  {
    BlocksEndAsCallsDo(ctx, Normalized(Content(bytes)), EndOf(fails));
  }
}
