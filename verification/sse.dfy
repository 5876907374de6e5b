/** The incremental SSE reader: byte by byte, over whatever chunks the transport returns. */
module Sse {
  import opened Protocol
  import opened ProviderEvents
  import opened SseSpec

  // ---------------------------------------------------------------- the state of the loop

  /** What is still to come, with a carriage return just read or not. */
  function Rest(previousCr: bool, bytes: seq<byte>): seq<byte>
    decreases |bytes|
  {
    if bytes == [] then []
    else if previousCr && bytes[0] == LF then Rest(false, bytes[1..])
    else if bytes[0] == CR then [LF] + Rest(true, bytes[1..])
    else [bytes[0]] + Rest(false, bytes[1..])
  }

  lemma {:induction false} RestIsNormalized(bytes: seq<byte>)
    ensures Rest(false, bytes) == Normalized(bytes)
    ensures Rest(true, bytes) == if bytes != [] && bytes[0] == LF then Normalized(bytes[1..]) else Normalized(bytes)
    decreases |bytes|
  {
    if bytes != [] {
      RestIsNormalized(bytes[1..]);
      if |bytes| > 1 {
        assert bytes[1..][1..] == bytes[2..];
      }
    }
  }

  /** The block being collected has no end yet; `lineStart` is where its last line begins. */
  ghost predicate Collecting(event: seq<byte>, lineStart: nat, limit: nat) {
    && |event| <= limit && NoBlockEnd(event, |event|) && lineStart <= |event|
    && (lineStart > 0 ==> event[lineStart - 1] == LF)
    && (forall j :: lineStart <= j < |event| ==> event[j] != LF)
  }

  lemma NoEndInPrefix(s: seq<byte>, more: seq<byte>, k: nat)
    requires k <= |s| && NoBlockEnd(s, k)
    ensures NoBlockEnd(s + more, k)
  {
    forall j: nat | j <= k ensures !IsBlockEnd(s + more, j) {
      assert !IsBlockEnd(s, j);
      assert j > 0 ==> (s + more)[j - 1] == s[j - 1];
      assert j > 1 ==> (s + more)[j - 2] == s[j - 2];
    }
  }

  lemma EndIsUnique(s: seq<byte>, k: nat)
    requires IsBlockEnd(s, k) && NoBlockEnd(s, k - 1)
    ensures BlockEnd(s) == k
  {
    assert BlockEnd(s) > 0 ==> !(BlockEnd(s) < k) && !(k < BlockEnd(s));
  }

  /** Too much without a blank line. */
  lemma Overflows(ctx: Context, event: seq<byte>, more: seq<byte>, end: Ending)
    requires NoBlockEnd(event, |event|) && |event| == ctx.limit && more != []
    ensures ReadBlocks(ctx, event + more, end) == Reading([], ProviderError(TOO_LARGE))
  {
    NoEndInPrefix(event, more, |event|);
    assert !(0 < BlockEnd(event + more) <= ctx.limit);
  }

  /** A byte that ends no block is collected. */
  lemma Collected(event: seq<byte>, lineStart: nat, limit: nat, b: byte)
    requires Collecting(event, lineStart, limit) && |event| < limit
    requires !(b == LF && lineStart == |event|)
    ensures Collecting(event + [b], if b == LF then |event| + 1 else lineStart, limit)
  {
    var next := event + [b];
    NoEndInPrefix(event, [b], |event|);
    assert |event| > 0 ==> next[|next| - 2] == event[|event| - 1];
  }

  /** A blank line ends the block. */
  lemma BlockComplete(ctx: Context, event: seq<byte>, lineStart: nat, more: seq<byte>, end: Ending)
    requires Collecting(event, lineStart, ctx.limit) && |event| < ctx.limit && lineStart == |event|
    ensures ReadBlocks(ctx, event + [LF] + more, end)
            == Continued(Dispatched(ctx, event + [LF]), ReadBlocks(ctx, more, end))
  {
    var s, k := event + [LF] + more, |event| + 1;
    assert s == event + ([LF] + more);
    NoEndInPrefix(event, [LF] + more, |event|);
    assert IsBlockEnd(s, k);
    EndIsUnique(s, k);
    assert s[..k] == event + [LF] && s[k..] == more;
  }

  // ---------------------------------------------------------------- one event

  function Join(data: seq<string>): string
    decreases |data|
  {
    if data == [] then ""
    else if |data| == 1 then data[0]
    else Join(data[..|data| - 1]) + "\n" + data[|data| - 1]
  }

  /** Joining the data values with line feeds is the data buffer without its last one. */
  ghost predicate Joins(data: seq<string>, buffer: string) {
    if data == [] then buffer == "" else buffer == Join(data) + "\n"
  }

  lemma JoinsStep(data: seq<string>, buffer: string, value: string)
    requires Joins(data, buffer)
    ensures Joins(data + [value], buffer + (value + "\n"))
  {
    assert (data + [value])[..|data|] == data;
  }

  method DataOf(lines: seq<string>) returns (data: seq<string>)
    ensures Joins(data, DataBuffer(lines))
  {
    data := [];
    var i := 0;
    while i < |lines|
      invariant i <= |lines| && Joins(data, DataBuffer(lines[..i]))
    {
      var k := Colon(lines[i]);
      var key, value := lines[i][..k], if k < |lines[i]| then lines[i][k + 1..] else "";
      assert lines[..i + 1][..i] == lines[..i];
      if key == "data" {
        var stripped := if value != "" && value[0] == ' ' then value[1..] else value;
        JoinsStep(data, DataBuffer(lines[..i]), stripped);
        data := data + [stripped];
      }
      i := i + 1;
    }
    assert lines[..i] == lines;
  }

  /** The part of the loop body that follows a blank line. */
  method DispatchBlock(ctx: Context, block: seq<byte>) returns (dispatch: Dispatch)
    ensures dispatch == Dispatched(ctx, block)
  {
    var text := ctx.codec.utf8(block);
    if text.None? {
      return Raises(ProviderError(INTERRUPTED));
    }
    var data := DataOf(Lines(text.value));
    if data == [] {
      return Nothing;
    }
    var value := Join(data);
    assert DataBuffer(Lines(text.value)) == value + "\n";
    if ctx.path.ChatCompletions? && value == "[DONE]" {
      return Ends(ProviderEvent.Completed(ctx.status, None));
    }
    var parsed := ctx.codec.json(value);
    if parsed.None? {
      return Raises(ProviderError(INTERRUPTED));
    }
    if ctx.path.Responses? {
      var kind := ctx.codec.typeOf(parsed.value);
      if kind.None? {
        return Raises(OtherError);
      }
      if kind.value in {"response.completed", "response.failed", "response.incomplete"} {
        return Ends(if kind.value == "response.completed" then ProviderEvent.Completed(ctx.status, Some(parsed.value))
                    else ProviderEvent.Failed(ctx.status, parsed.value));
      }
    }
    return Yields(Append(ctx.status, parsed.value));
  }

  // ---------------------------------------------------------------- the transport

  /** A decoded response body: what is left of it, and whether it fails instead of ending. */
  class Body {
    var rest: seq<byte>
    const fails: Option<Ending>

    constructor (bytes: seq<byte>, fails: Option<Ending>)
      ensures rest == bytes && this.fails == fails
    {
      rest, this.fails := bytes, fails;
    }

    /** One read returns some of what is left, at most `size` bytes. Nothing is what it
        returns at the end, but also when it is asked for nothing. */
    method Read(size: nat) returns (chunk: seq<byte>)
      modifies this
      ensures old(rest) == chunk + rest && |chunk| <= size
      ensures chunk == [] ==> size == 0 || rest == []
    {
      if size == 0 || rest == [] {
        return [];
      }
      var n: nat :| 1 <= n <= size && n <= |rest|;
      chunk, rest := rest[..n], rest[n..];
    }
  }

  function Min(a: nat, b: nat): nat {
    if a < b then a else b
  }

  // ---------------------------------------------------------------- _sse

  /** What has been yielded, and what the rest of the body will add to it. */
  ghost predicate OnCourse(ctx: Context, whole: Reading, events: seq<ProviderEvent>, event: seq<byte>,
                           lineStart: nat, rest: seq<byte>, end: Ending) {
    Collecting(event, lineStart, ctx.limit) && whole == Before(events, ReadBlocks(ctx, event + rest, end))
  }

  /** One byte of the loop: `ending` is set once the reader is through. */
  method TakeByte(ctx: Context, b: byte, event: seq<byte>, lineStart: nat, previousCr: bool,
                  ghost whole: Reading, ghost events: seq<ProviderEvent>, ghost rest: seq<byte>, ghost end: Ending)
    returns (event': seq<byte>, lineStart': nat, previousCr': bool,
             yielded: Option<ProviderEvent>, ending: Option<Ending>)
    requires OnCourse(ctx, whole, events, event, lineStart, Rest(previousCr, [b] + rest), end)
    ensures var events' := if yielded.Some? then events + [yielded.value] else events;
            match ending
            case None => OnCourse(ctx, whole, events', event', lineStart', Rest(previousCr', rest), end)
            case Some(ending) => whole == Reading(events', ending)
  {
    event', lineStart', previousCr', yielded, ending := event, lineStart, false, None, None;
    assert ([b] + rest)[1..] == rest;
    if previousCr && b == LF {
      return;
    }
    var c := if b == CR then LF else b;
    previousCr' := b == CR;
    ghost var more := Rest(previousCr', rest);
    assert Rest(previousCr, [b] + rest) == [c] + more;
    assert event + ([c] + more) == event + [c] + more;
    if |event| >= ctx.limit {
      Overflows(ctx, event, [c] + more, end);
      return [], 0, previousCr', None, Some(ProviderError(TOO_LARGE));
    }
    event' := event + [c];
    if c != LF {
      Collected(event, lineStart, ctx.limit, c);
      return;
    }
    lineStart' := |event'|;
    if lineStart != |event| {
      Collected(event, lineStart, ctx.limit, c);
      return;
    }
    BlockComplete(ctx, event, lineStart, more, end);
    var dispatch := DispatchBlock(ctx, event');
    event', lineStart' := [], 0;
    assert [] + more == more;
    if dispatch.Yields? {
      yielded := Some(dispatch.event);
      BeforeBefore(events, dispatch.event, ReadBlocks(ctx, more, end));
    } else if dispatch.Ends? {
      yielded, ending := Some(dispatch.event), Some(Terminal);
    } else if dispatch.Raises? {
      ending := Some(dispatch.ending);
    }
  }

  lemma BeforeBefore(events: seq<ProviderEvent>, event: ProviderEvent, reading: Reading)
    ensures Before(events, Before([event], reading)) == Before(events + [event], reading)
  {
    assert events + ([event] + reading.events) == events + [event] + reading.events;
  }

  /** The bytes of one chunk. */
  method TakeChunk(ctx: Context, chunk: seq<byte>, event: seq<byte>, lineStart: nat, previousCr: bool,
                   ghost whole: Reading, events: seq<ProviderEvent>, ghost rest: seq<byte>, ghost end: Ending)
    returns (event': seq<byte>, lineStart': nat, previousCr': bool,
             events': seq<ProviderEvent>, ending: Option<Ending>)
    requires OnCourse(ctx, whole, events, event, lineStart, Rest(previousCr, chunk + rest), end)
    ensures match ending
            case None => OnCourse(ctx, whole, events', event', lineStart', Rest(previousCr', rest), end)
            case Some(ending) => whole == Reading(events', ending)
  {
    event', lineStart', previousCr', events', ending := event, lineStart, previousCr, events, None;
    var i := 0;
    assert chunk[0..] == chunk;
    while i < |chunk|
      invariant i <= |chunk| && ending.None?
      invariant OnCourse(ctx, whole, events', event', lineStart', Rest(previousCr', chunk[i..] + rest), end)
    {
      assert chunk[i..] + rest == [chunk[i]] + (chunk[i + 1..] + rest);
      ghost var before := events';
      var yielded;
      event', lineStart', previousCr', yielded, ending :=
        TakeByte(ctx, chunk[i], event', lineStart', previousCr', whole, before, chunk[i + 1..] + rest, end);
      if yielded.Some? {
        events' := events' + [yielded.value];
      }
      if ending.Some? {
        return;
      }
      i := i + 1;
    }
    assert chunk[i..] + rest == rest;
  }

  /** Up to the third byte the reader does not know whether the body begins with a mark. */
  ghost predicate Waiting(ctx: Context, whole: Reading, prefix: seq<byte>, rest: seq<byte>, fails: Option<Ending>) {
    |prefix| < 3 && whole == ReadBody(ctx, prefix + rest, fails)
  }

  lemma Started(ctx: Context, whole: Reading, prefix: seq<byte>, chunk: seq<byte>, rest: seq<byte>, fails: Option<Ending>)
    requires |prefix| == 3 && whole == ReadBody(ctx, prefix + chunk + rest, fails)
    ensures var kept := if prefix != BOM then prefix + chunk else chunk;
            OnCourse(ctx, whole, [], [], 0, Rest(false, kept + rest), EndOf(fails))
  {
    var bytes := prefix + chunk + rest;
    var kept := if prefix != BOM then prefix + chunk else chunk;
    assert bytes[..3] == prefix && bytes[3..] == chunk + rest;
    assert Content(bytes) == kept + rest;
    RestIsNormalized(kept + rest);
    assert [] + Rest(false, kept + rest) == Rest(false, kept + rest);
  }

  lemma Regrouped(prefix: seq<byte>, chunk: seq<byte>, rest: seq<byte>, n: nat)
    requires n <= |chunk|
    ensures prefix + (chunk + rest) == prefix + chunk[..n] + chunk[n..] + rest
    ensures n == |chunk| ==> prefix + (chunk + rest) == prefix + chunk[..n] + rest
  {
    assert chunk == chunk[..n] + chunk[n..];
  }

  /** The first three bytes are held back; once they are there, all but a mark is kept. */
  method TakePrefix(ctx: Context, ghost whole: Reading, prefix: seq<byte>, chunk: seq<byte>,
                    ghost rest: seq<byte>, ghost fails: Option<Ending>)
    returns (held: seq<byte>, kept: seq<byte>)
    requires Waiting(ctx, whole, prefix, chunk + rest, fails)
    ensures |held| < 3 ==> Waiting(ctx, whole, held, rest, fails)
    ensures |held| >= 3 ==> OnCourse(ctx, whole, [], [], 0, Rest(false, kept + rest), EndOf(fails))
  {
    var n := Min(3 - |prefix|, |chunk|);
    Regrouped(prefix, chunk, rest, n);
    held, kept := prefix + chunk[..n], chunk[n..];
    if |held| == 3 {
      Started(ctx, whole, held, kept, rest, fails);
      if held != BOM {
        kept := held + kept;
      }
    }
  }

  /** The body has ended in the middle of a block. */
  lemma EndsOpen(ctx: Context, event: seq<byte>, lineStart: nat, end: Ending)
    requires Collecting(event, lineStart, ctx.limit)
    ensures ReadBlocks(ctx, event + Rest(true, []), end) == Reading([], end)
    ensures ReadBlocks(ctx, event + Rest(false, []), end) == Reading([], end)
  {
    assert event + [] == event;
  }

  /** `_sse`: whatever the sizes in which the transport returns the body, the reader yields
      what the body means as a whole. Each read asks for at least one byte. */
  method ReadSse(ctx: Context, body: Body) returns (reading: Reading)
    modifies body
    ensures reading == ReadBody(ctx, old(body.rest), body.fails)
  {
    ghost var whole := ReadBody(ctx, body.rest, body.fails);
    var events: seq<ProviderEvent>, event: seq<byte>, lineStart, previousCr := [], [], 0, false;
    var prefix: Option<seq<byte>> := Some([]);
    assert [] + body.rest == body.rest;
    while true
      invariant |event| <= ctx.limit
      invariant prefix.Some? ==>
                  && events == [] && event == [] && lineStart == 0 && !previousCr
                  && Waiting(ctx, whole, prefix.value, body.rest, body.fails)
      invariant prefix.None? ==>
                  OnCourse(ctx, whole, events, event, lineStart, Rest(previousCr, body.rest), EndOf(body.fails))
      decreases |body.rest|
    {
      var size := Min(8192, ctx.limit - |event| + 1);
      ghost var left := body.rest;
      var chunk := body.Read(size);
      if chunk == [] {
        EndsOpen(ctx, event, lineStart, EndOf(body.fails));
        return Reading(events, EndOf(body.fails));
      }
      if prefix.Some? {
        var held, kept := TakePrefix(ctx, whole, prefix.value, chunk, body.rest, body.fails);
        if |held| < 3 {
          prefix := Some(held);
          continue;
        }
        prefix, chunk := None, kept;
      }
      var ending;
      event, lineStart, previousCr, events, ending :=
        TakeChunk(ctx, chunk, event, lineStart, previousCr, whole, events, body.rest, EndOf(body.fails));
      if ending.Some? {
        return Reading(events, ending.value);
      }
    }
  }

  // ---------------------------------------------------------------- _json_body and __iter__

  /** `_json_body`: the buffer never exceeds the limit, and each read asks for at least one
      byte. */
  method ReadJsonBody(ctx: Context, body: Body) returns (reading: JsonReading)
    modifies body
    ensures reading == ReadJson(ctx, old(body.rest), body.fails)
  {
    var buffer: seq<byte> := [];
    while true
      invariant |buffer| <= ctx.limit && old(body.rest) == buffer + body.rest
      decreases |body.rest|
    {
      var part := body.Read(Min(8192, ctx.limit - |buffer| + 1));
      if part == [] {
        break;
      }
      if |buffer| + |part| > ctx.limit {
        return Unread(ProviderError(TOO_LARGE));
      }
      buffer := buffer + part;
    }
    assert buffer == old(body.rest);
    if body.fails.Some? {
      return Unread(body.fails.value);
    }
    var text := ctx.codec.utf8(buffer);
    if text.None? {
      return Unread(ProviderError(INTERRUPTED));
    }
    var parsed := ctx.codec.json(text.value);
    return if parsed.None? then Unread(ProviderError(INTERRUPTED)) else Parsed(parsed.value);
  }

  /** The part of `__iter__` after the response headers. */
  method Iterate(ctx: Context, streaming: bool, eventStream: bool, body: Body) returns (reading: Reading)
    modifies body
    ensures reading == ReadCall(ctx, streaming, eventStream, old(body.rest), body.fails)
  {
    if !streaming {
      var result := ReadJsonBody(ctx, body);
      return if result.Unread? then Reading([], result.ending) else Reading([Result(ctx.status, result.body)], Terminal);
    }
    var events := [Headers(ctx.status)];
    if eventStream {
      var inner := ReadSse(ctx, body);
      return Reading(events + inner.events, inner.ending);
    }
    var result := ReadJsonBody(ctx, body);
    return if result.Unread? then Reading(events, result.ending)
           else Reading(events + [ProviderEvent.Completed(ctx.status, Some(result.body))], Terminal);
  }
}
