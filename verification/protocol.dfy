/** The llm.v1 messages and the shared append-only log they are published to. */
module Protocol {

  datatype Option<+T> = None | Some(value: T)

  /** JSON bodies are carried opaquely, as their encoded text. */
  type Json = string

  datatype EndStatus = Completed | Failed | Interrupted

  /** One strictly parsed llm.v1 payload. `Foreign` stands for a system message
      (principal 0) or a message of a channel that is not subscribed: it takes a
      position in the log and is otherwise ignored. */
  datatype Payload =
    | InferRequest(streamId: string, streaming: bool, provider: Option<string>, body: Json, size: nat)
    | InferResult(streamId: string, prevSeq: nat, status: int, resultBody: Option<Json>)
    | InferAppend(streamId: string, requestSeq: nat, prevSeq: nat, chunk: Json)
    | InferEnd(streamId: string, requestSeq: nat, status: int, endStatus: EndStatus, endBody: Option<Json>)
    | InferCancel(streamId: string, requestSeq: nat)
    | Foreign

  datatype Entry = Entry(uuid: nat, channel: nat, principal: nat, payload: Payload)

  /** The message with OpenEvent seq `s` is `At(log, s)`. */
  type Log = seq<Entry>

  function At(log: Log, s: nat): Entry
    requires 1 <= s <= |log|
  {
    log[s - 1]
  }

  predicate IsRequest(log: Log, r: nat) {
    1 <= r <= |log| && At(log, r).payload.InferRequest?
  }

  /** Everything except a request refers to one: a result through `prev_seq`, the
      other kinds through `request_seq`. */
  predicate IsReply(e: Entry) {
    !e.payload.InferRequest? && !e.payload.Foreign?
  }

  /** The kinds only the Worker publishes. */
  predicate IsOutput(e: Entry) {
    e.payload.InferResult? || e.payload.InferAppend? || e.payload.InferEnd?
  }

  function RefSeq(e: Entry): nat
    requires IsReply(e)
  {
    if e.payload.InferResult? then e.payload.prevSeq else e.payload.requestSeq
  }

  /** `e` is addressed to the request `req`, which has seq `r`. */
  predicate Matches(req: Entry, r: nat, e: Entry)
    requires req.payload.InferRequest?
  {
    IsReply(e) && RefSeq(e) == r && e.channel == req.channel && e.payload.streamId == req.payload.streamId
  }

  function Key(req: Entry): (nat, string)
    requires req.payload.InferRequest?
  {
    (req.channel, req.payload.streamId)
  }

  /** No earlier request of the log has claimed the same channel and stream id. */
  ghost predicate Original(log: Log, r: nat)
    requires IsRequest(log, r)
  {
    forall q :: 1 <= q < r && IsRequest(log, q) ==> Key(At(log, q)) != Key(At(log, r))
  }

  lemma {:induction false} OriginalExtends(log: Log, more: Log, r: nat)
    requires IsRequest(log, r) && log <= more
    ensures IsRequest(more, r) && At(more, r) == At(log, r)
    ensures Original(more, r) == Original(log, r)
  {
    assert forall q :: 1 <= q <= |log| ==> At(more, q) == At(log, q);
    assert forall q :: 1 <= q <= |log| ==> (IsRequest(more, q) <==> IsRequest(log, q));
  }
}
