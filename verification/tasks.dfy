/** The Worker's publishing loops: one provider task, and recovery's outputs. */
module Tasks {
  import opened Protocol
  import opened WorkerView
  import opened ProviderEvents
  import opened Delivery
  import opened Rpc
  import opened Publishing
  import System
  import SseSpec
  import Fallback
  import opened WorkerClass

  /** `_can_output` of one request, which other threads may make false at any moment. */
  class Gate {
    var open: bool

    constructor ()
      ensures open
    {
      open := true;
    }

    method CanOutput() returns (can: bool)
      modifies this
      ensures can == open && (can ==> old(open))
    {
      var closes: bool := *;
      open := open && !closes;
      can := open;
    }
  }

  /** How `_emit` ends: with a seq, with ProviderError 60008, with `_Stopped`, or with the
      publisher's error. */
  datatype Emitted = Placed(seqNo: nat) | Oversized | Withheld | Lost(verdict: Verdict)

  function DraftOf(st: State, payload: Payload): Draft {
    Draft(st.channel, System.WORKER_PRINCIPAL, payload)
  }

  /** The event is in the log, at this seq, as it was built. */
  ghost predicate StandsAt(log: Log, q: nat, st: State, payload: Payload) {
    && 1 <= q <= |log| && At(log, q).payload == payload
    && At(log, q).channel == st.channel && At(log, q).principal == System.WORKER_PRINCIPAL
  }

  /** The publisher's error, and that it had its reasons. */
  ghost predicate WasLost(heard: seq<Reply>, now: seq<Reply>, verdict: Verdict, maxRetries: nat) {
    verdict.PublishError? &&
    exists uuid: Option<nat>, publishes: nat :: Explained(heard, now, verdict, uuid, publishes, maxRetries, false)
  }

  /** `_emit`: nothing is published for a request that is terminal or too large an event, and
      anything else is, unless publication fails or the Worker stops. */
  method Emit(gate: Gate, server: Server, st: State, payload: Payload, tooLarge: bool, maxRetries: nat)
    returns (emitted: Emitted)
    requires server.Valid()
    modifies gate, server
    ensures server.Valid() && Later(old(server.st), server.st) && old(server.heard) <= server.heard
    ensures (gate.open ==> old(gate.open)) && (old(server.stopped) ==> server.stopped)
    ensures !old(gate.open) ==> emitted.Withheld? && server.st == old(server.st)
    ensures match emitted
            case Placed(q) => !tooLarge && StandsAt(server.st.log, q, st, payload)
            case Oversized => tooLarge && server.st == old(server.st)
            case Withheld => !gate.open || server.stopped
            case Lost(verdict) =>
              !tooLarge && !server.stopped && WasLost(old(server.heard), server.heard, verdict, maxRetries)
  {
    LaterReflexive(server.st);
    var can := gate.CanOutput();
    if !can {
      return Withheld;
    }
    if tooLarge {
      return Oversized;
    }
    var still := gate.CanOutput();
    ghost var uuid: Option<nat>, publishes: nat;
    var verdict;
    verdict, uuid, publishes := Publish(server, DraftOf(st, payload), maxRetries, true, false, false, !still);
    HeardGrows(old(server.heard), server.heard, verdict, uuid, publishes, maxRetries, server.stopped);
    match verdict
    case Published(q) => return Placed(q);
    case Vetoed => return Withheld;
    case _ => return if server.stopped then Withheld else Lost(verdict);
  }

  // ---------------------------------------------------------------- an error output always fits

  /** `size` is what the encoder makes of this error output, at some time. */
  ghost predicate MeasuredAs(size: Payload -> nat, st: State, code: nat, recovery: bool, rejection: bool)
    requires code in Fallback.ERROR_CODES
  {
    var asEnd := st.streaming && !rejection && !(recovery && st.duplicate);
    exists tsMs: nat ::
      && tsMs < Fallback.U64
      && var doc := Fallback.ErrorEvent(asEnd, st.streamId, st.requestSeq, code, tsMs);
      && Fallback.PlainDoc(doc)
      && size(System.ErrorPayload(st, code, recovery, rejection)) == |Fallback.Encoded(doc)|
  }

  /** Whatever is reported about whatever request, `validate_payload` lets it pass. */
  lemma ErrorOutputFits(size: Payload -> nat, limit: nat, st: State, code: nat, recovery: bool, rejection: bool)
    requires Fallback.IsUsed(code, recovery, rejection) && Fallback.IsStreamId(st.streamId)
    requires 0 < st.requestSeq < Fallback.U64 && Fallback.LEAST_PAYLOAD_LIMIT <= limit
    requires MeasuredAs(size, st, code, recovery, rejection)
    ensures size(System.ErrorPayload(st, code, recovery, rejection)) <= limit
  {
    var asEnd := st.streaming && !rejection && !(recovery && st.duplicate);
    var tsMs: nat :|
      && tsMs < Fallback.U64
      && var doc := Fallback.ErrorEvent(asEnd, st.streamId, st.requestSeq, code, tsMs);
      && Fallback.PlainDoc(doc)
      && size(System.ErrorPayload(st, code, recovery, rejection)) == |Fallback.Encoded(doc)|;
    Fallback.ErrorOutputIsPublishable(st.streaming, st.duplicate, recovery, rejection,
                                      st.streamId, st.requestSeq, code, tsMs, limit);
  }

  // ---------------------------------------------------------------- _provider_task

  /** One published output of a task. */
  datatype Output = Output(seqNo: nat, payload: Payload)

  function WriterAfter(outputs: seq<Output>): Option<nat> {
    if outputs == [] then None else Some(outputs[|outputs| - 1].seqNo)
  }

  /** What the provider's events become: each output names its predecessor. */
  ghost predicate FromEvents(st: State, events: seq<ProviderEvent>, outputs: seq<Output>) {
    && |outputs| <= |events|
    && forall k :: 0 <= k < |outputs| ==>
         && (events[k].Append? ==> k > 0)
         && outputs[k].payload == System.OutputPayload(st, events[k], WriterAfter(outputs[..k]))
  }

  ghost predicate AllStand(log: Log, st: State, outputs: seq<Output>) {
    forall k :: 0 <= k < |outputs| ==> StandsAt(log, outputs[k].seqNo, st, outputs[k].payload)
  }

  lemma StandLater(a: Store, b: Store, st: State, outputs: seq<Output>)
    requires AllStand(a.log, st, outputs) && Later(a, b)
    ensures AllStand(b.log, st, outputs)
  {
    forall k | 0 <= k < |outputs| ensures StandsAt(b.log, outputs[k].seqNo, st, outputs[k].payload) {
      assert StandsAt(a.log, outputs[k].seqNo, st, outputs[k].payload);
      assert At(b.log, outputs[k].seqNo) == At(a.log, outputs[k].seqNo);
    }
  }

  lemma {:induction false} StageOf(streaming: bool, stage: Stage, events: seq<ProviderEvent>, k: nat)
    requires Follows(streaming, stage, events) && k < |events|
    ensures Allowed(streaming, if k == 0 then stage else After(events[k - 1]), events[k])
    decreases |events|
  {
    if k > 0 {
      StageOf(streaming, After(events[0]), events[1..], k - 1);
      assert events[1..][k - 1] == events[k];
      assert k > 1 ==> events[1..][k - 2] == events[k - 1];
    }
  }

  /** An append is never the first event, so there is always a predecessor to name. */
  lemma AppendHasWriter(streaming: bool, events: seq<ProviderEvent>, k: nat)
    requires Follows(streaming, Fresh, events) && k < |events| && events[k].Append?
    ensures k > 0
  {
    StageOf(streaming, Fresh, events, k);
  }

  /** How the task ends. After a publication that was lost, or an error output that did not
      fit, the Worker has to fail. */
  datatype TaskEnd = Finished | LostOutput(verdict: Verdict) | ErrorOverflow

  /** An event that is too large, or the exception that ended the call. */
  function ReportedCode(events: seq<ProviderEvent>, outputs: seq<Output>, ending: SseSpec.Ending): int {
    if |outputs| < |events| then PAYLOAD_TOO_LARGE else ErrorCode(ending)
  }

  /** What a task has published so far. */
  ghost predicate Progressed(start: Store, now: Store, st: State, events: seq<ProviderEvent>, outputs: seq<Output>,
                             size: Payload -> nat, limit: nat) {
    && Later(start, now) && FromEvents(st, events, outputs) && AllStand(now.log, st, outputs)
    && forall k :: 0 <= k < |outputs| ==> size(outputs[k].payload) <= limit
  }

  lemma ProgressLater(start: Store, a: Store, b: Store, st: State, events: seq<ProviderEvent>, outputs: seq<Output>,
                      size: Payload -> nat, limit: nat)
    requires Progressed(start, a, st, events, outputs, size, limit) && Later(a, b)
    ensures Progressed(start, b, st, events, outputs, size, limit)
  {
    LaterTransitive(start, a, b);
    StandLater(a, b, st, outputs);
  }

  /** One turn of the task's loop, once the event may still be published. */
  method PublishEvent(gate: Gate, server: Server, cfg: Config, st: State, events: seq<ProviderEvent>,
                      outputs: seq<Output>, size: Payload -> nat, maxRetries: nat, ghost start: Store)
    returns (emitted: Emitted, more: seq<Output>)
    requires server.Valid() && Follows(st.streaming, Fresh, events) && |outputs| < |events|
    requires Progressed(start, server.st, st, events, outputs, size, cfg.maxPayloadBytes)
    modifies gate, server
    ensures server.Valid() && Progressed(start, server.st, st, events, more, size, cfg.maxPayloadBytes)
    ensures |more| == |outputs| + if emitted.Placed? then 1 else 0
    ensures !emitted.Placed? ==> more == outputs
    ensures (gate.open ==> old(gate.open)) && old(server.heard) <= server.heard
    ensures emitted.Oversized? ==> IsOversized(cfg, st, events, outputs, size)
    ensures emitted.Withheld? ==> !gate.open || server.stopped
    ensures emitted.Lost? ==> WasLost(old(server.heard), server.heard, emitted.verdict, maxRetries)
  {
    var n := |outputs|;
    if events[n].Append? {
      AppendHasWriter(st.streaming, events, n);
    }
    var payload := System.OutputPayload(st, events[n], WriterAfter(outputs));
    ghost var before := server.st;
    emitted := Emit(gate, server, st, payload, size(payload) > cfg.maxPayloadBytes, maxRetries);
    ProgressLater(start, before, server.st, st, events, outputs, size, cfg.maxPayloadBytes);
    more := outputs;
    if emitted.Placed? {
      ProgressNext(start, server.st, st, events, outputs, Output(emitted.seqNo, payload), size, cfg.maxPayloadBytes);
      more := outputs + [Output(emitted.seqNo, payload)];
    }
  }

  lemma ProgressNext(start: Store, now: Store, st: State, events: seq<ProviderEvent>, outputs: seq<Output>,
                     output: Output, size: Payload -> nat, limit: nat)
    requires Progressed(start, now, st, events, outputs, size, limit) && |outputs| < |events|
    requires events[|outputs|].Append? ==> outputs != []
    requires output.payload == System.OutputPayload(st, events[|outputs|], WriterAfter(outputs))
    requires StandsAt(now.log, output.seqNo, st, output.payload) && size(output.payload) <= limit
    ensures Progressed(start, now, st, events, outputs + [output], size, limit)
  {
    Extended(st, events, outputs, output);
  }

  /** The next event does not fit. */
  ghost predicate IsOversized(cfg: Config, st: State, events: seq<ProviderEvent>, outputs: seq<Output>,
                              size: Payload -> nat) {
    && |outputs| < |events| && (events[|outputs|].Append? ==> outputs != [])
    && size(System.OutputPayload(st, events[|outputs|], WriterAfter(outputs))) > cfg.maxPayloadBytes
  }

  predicate IsDue(ending: SseSpec.Ending) {
    !ending.Terminal? && !ending.Cancellation?
  }

  /** When and what a task reports as an error: an event that does not fit, or the exception
      that ended a call whose every event was published. */
  ghost predicate Reports(cfg: Config, log: Log, st: State, events: seq<ProviderEvent>, outputs: seq<Output>,
                          ending: SseSpec.Ending, size: Payload -> nat, error: Output) {
    && StandsAt(log, error.seqNo, st, error.payload)
    && error.payload == System.ErrorPayload(st, ReportedCode(events, outputs, ending), false, false)
    && if |outputs| == |events| then IsDue(ending)
       else IsOversized(cfg, st, events, outputs, size)
  }

  /** A task that is through has published every event, or all before one that does not fit,
      and an error output exactly when one is due. */
  ghost predicate Through(cfg: Config, st: State, events: seq<ProviderEvent>, outputs: seq<Output>,
                          ending: SseSpec.Ending, size: Payload -> nat, error: Option<Output>) {
    if |outputs| == |events| then error.Some? == IsDue(ending)
    else IsOversized(cfg, st, events, outputs, size) && error.Some?
  }

  /** `_provider_task` from its first event on. `events` and `ending` are what the provider
      call yields and how it ends; `size` says what an encoded output measures. The outputs
      are the events, in order and from the first on, chained by seq; after them there is at
      most one error output. Only a terminal, a stop or a lost publication cuts that short. */
  method ProviderTask(gate: Gate, server: Server, cfg: Config, st: State, events: seq<ProviderEvent>,
                      ending: SseSpec.Ending, size: Payload -> nat, maxRetries: nat)
    returns (outputs: seq<Output>, error: Option<Output>, end: TaskEnd)
    requires server.Valid() && Follows(st.streaming, Fresh, events)
    modifies gate, server
    ensures server.Valid()
    ensures Progressed(old(server.st), server.st, st, events, outputs, size, cfg.maxPayloadBytes)
    ensures error.Some? ==> Reports(cfg, server.st.log, st, events, outputs, ending, size, error.value)
    ensures !old(gate.open) ==> outputs == [] && error.None? && server.st == old(server.st)
    ensures match end
            case Finished => gate.open && !server.stopped ==> Through(cfg, st, events, outputs, ending, size, error)
            case LostOutput(verdict) =>
              error.None? && exists heard :: old(server.heard) <= heard && WasLost(heard, server.heard, verdict, maxRetries)
            case ErrorOverflow =>
              && error.None?
              && (|outputs| == |events| ==> IsDue(ending))
              && size(System.ErrorPayload(st, ReportedCode(events, outputs, ending), false, false)) > cfg.maxPayloadBytes
  {
    ghost var start := server.st;
    LaterReflexive(start);
    error, end := None, Finished;
    var halt;
    outputs, halt := PublishEvents(gate, server, cfg, st, events, size, maxRetries);
    if halt.Some? && halt.value.Lost? {
      end := LostOutput(halt.value.verdict);
    } else if if halt.Some? then halt.value.Oversized? else IsDue(ending) {
      ghost var before := server.st;
      error, end := ErrorOutput(gate, server, cfg, st, ReportedCode(events, outputs, ending), size, maxRetries);
      ProgressLater(start, before, server.st, st, events, outputs, size, cfg.maxPayloadBytes);
    }
  }

  /** The loop over the events; `halt` is what kept it from publishing them all. */
  method PublishEvents(gate: Gate, server: Server, cfg: Config, st: State, events: seq<ProviderEvent>,
                       size: Payload -> nat, maxRetries: nat)
    returns (outputs: seq<Output>, halt: Option<Emitted>)
    requires server.Valid() && Follows(st.streaming, Fresh, events)
    modifies gate, server
    ensures server.Valid() && old(server.heard) <= server.heard && (gate.open ==> old(gate.open))
    ensures Progressed(old(server.st), server.st, st, events, outputs, size, cfg.maxPayloadBytes)
    ensures !old(gate.open) ==> outputs == [] && server.st == old(server.st)
    ensures !old(gate.open) ==> halt.Some? ==> halt.value.Withheld?
    ensures match halt
            case None => |outputs| == |events|
            case Some(emitted) => |outputs| < |events| && !emitted.Placed?
    ensures halt == Some(Oversized) ==> IsOversized(cfg, st, events, outputs, size)
    ensures halt == Some(Withheld) ==> !gate.open || server.stopped
    ensures halt.Some? && halt.value.Lost? ==>
              exists heard :: old(server.heard) <= heard && WasLost(heard, server.heard, halt.value.verdict, maxRetries)
  {
    ghost var start := server.st;
    LaterReflexive(start);
    outputs := [];
    while |outputs| < |events|
      invariant server.Valid() && old(server.heard) <= server.heard && (gate.open ==> old(gate.open))
      invariant Progressed(start, server.st, st, events, outputs, size, cfg.maxPayloadBytes)
      invariant !old(gate.open) ==> outputs == [] && server.st == start
      decreases |events| - |outputs|
    {
      var can := gate.CanOutput();
      if !can {
        return outputs, Some(Withheld);
      }
      var emitted, more := PublishEvent(gate, server, cfg, st, events, outputs, size, maxRetries, start);
      if !emitted.Placed? {
        return outputs, Some(emitted);
      }
      outputs := more;
    }
    return outputs, None;
  }

  /** The code a task reports for the exception that ended its call. */
  function ErrorCode(ending: SseSpec.Ending): int {
    if ending.ProviderError? then ending.code else MODEL_PROXY_INTERRUPTED
  }

  lemma Extended(st: State, events: seq<ProviderEvent>, outputs: seq<Output>, output: Output)
    requires FromEvents(st, events, outputs) && |outputs| < |events|
    requires events[|outputs|].Append? ==> outputs != []
    requires output.payload == System.OutputPayload(st, events[|outputs|], WriterAfter(outputs))
    ensures FromEvents(st, events, outputs + [output])
  {
    var more := outputs + [output];
    forall k | 0 <= k < |more|
      ensures (events[k].Append? ==> k > 0)
      ensures more[k].payload == System.OutputPayload(st, events[k], WriterAfter(more[..k]))
    {
      assert more[..k] == outputs[..k];
    }
  }

  /** `_error_output` of a task, and what the task makes of its failure. */
  method ErrorOutput(gate: Gate, server: Server, cfg: Config, st: State, code: int, size: Payload -> nat, maxRetries: nat)
    returns (error: Option<Output>, end: TaskEnd)
    requires server.Valid()
    modifies gate, server
    ensures server.Valid() && Later(old(server.st), server.st)
    ensures error.Some? ==>
              && error.value.payload == System.ErrorPayload(st, code, false, false)
              && StandsAt(server.st.log, error.value.seqNo, st, error.value.payload)
    ensures !old(gate.open) ==> error.None? && server.st == old(server.st)
    ensures match end
            case Finished => error.Some? || !gate.open || server.stopped
            case LostOutput(verdict) => error.None? && WasLost(old(server.heard), server.heard, verdict, maxRetries)
            case ErrorOverflow =>
              error.None? && size(System.ErrorPayload(st, code, false, false)) > cfg.maxPayloadBytes
  {
    var payload := System.ErrorPayload(st, code, false, false);
    var emitted := Emit(gate, server, st, payload, size(payload) > cfg.maxPayloadBytes, maxRetries);
    match emitted
    case Placed(q) => return Some(Output(q, payload)), Finished;
    case Withheld => return None, Finished;
    case Lost(verdict) => return None, LostOutput(verdict);
    case Oversized => return None, ErrorOverflow;
  }

  /** So an event that is too large never makes the Worker fail: with the real encoder, a
      configuration that was accepted and a call that ends as calls end, no task overflows. */
  lemma TaskNeverOverflows(cfg: Config, st: State, events: seq<ProviderEvent>, outputs: seq<Output>,
                           ending: SseSpec.Ending, size: Payload -> nat)
    requires Fallback.IsStreamId(st.streamId) && 0 < st.requestSeq < Fallback.U64
    requires Fallback.LEAST_PAYLOAD_LIMIT <= cfg.maxPayloadBytes
    requires SseSpec.EndsAsCallsDo(ending)
    requires forall code: nat :: Fallback.IsUsed(code, false, false) ==> MeasuredAs(size, st, code, false, false)
    ensures size(System.ErrorPayload(st, ReportedCode(events, outputs, ending), false, false)) <= cfg.maxPayloadBytes
  {
    ErrorOutputFits(size, cfg.maxPayloadBytes, st, ReportedCode(events, outputs, ending), false, false);
  }

  /** The last event ends the call by itself. */
  ghost predicate EndsItself(events: seq<ProviderEvent>) {
    events != [] && var last := events[|events| - 1]; last.Result? || last.Completed? || last.Failed?
  }

  /** A stream begins with the status of its response; an error is reported exactly when the call
      neither ended itself nor was cancelled, and an event that stays unpublished is reported as
      too large. */
  lemma CallIsReported(ctx: SseSpec.Context, streaming: bool, eventStream: bool, bytes: seq<SseSpec.byte>,
                       fails: Option<SseSpec.Ending>, outputs: seq<Output>)
    requires fails != Some(SseSpec.Terminal)
    ensures var call := SseSpec.ReadCall(ctx, streaming, eventStream, bytes, fails);
            && (IsDue(call.ending) <==> call.ending != SseSpec.Cancellation && !EndsItself(call.events))
            && (streaming ==> call.events != [] && call.events[0] == Headers(ctx.status))
            && (|outputs| < |call.events| ==> ReportedCode(call.events, outputs, call.ending) == 60008)
  {
    SseSpec.CallIsGrammatical(ctx, streaming, eventStream, bytes, fails);
  }

  predicate IsReadable(ctx: SseSpec.Context, bytes: seq<SseSpec.byte>) {
    ctx.codec.utf8(bytes).Some? && ctx.codec.json(ctx.codec.utf8(bytes).value).Some?
  }

  predicate IsWholeBody(streaming: bool, status: int, body: Json, event: ProviderEvent) {
    if streaming then event == ProviderEvent.Completed(status, Some(body)) else event == Result(status, body)
  }

  /** What a call amounts to whose response is one JSON value, read off that response: a body
      over the limit is 60008 whatever else is wrong with it, the transport's own error keeps
      its code, anything else that goes wrong is 60007, a cancelled call reports nothing, and
      what can be read is the one result, or the end of a stream without appends. */
  lemma JsonCallIsReported(ctx: SseSpec.Context, streaming: bool, eventStream: bool, bytes: seq<SseSpec.byte>,
                           fails: Option<SseSpec.Ending>)
    requires fails != Some(SseSpec.Terminal) && !(streaming && eventStream)
    ensures var call := SseSpec.ReadCall(ctx, streaming, eventStream, bytes, fails);
            var head := if streaming then [Headers(ctx.status)] else [];
            var code := if IsDue(call.ending) then Some(ErrorCode(call.ending)) else None;
            if |bytes| > ctx.limit then call.events == head && code == Some(60008)
            else match fails
              case Some(ProviderError(c)) => call.events == head && code == Some(c)
              case Some(OtherError) => call.events == head && code == Some(60007)
              case Some(_) => call.events == head && code == None
              case None =>
                if !IsReadable(ctx, bytes) then call.events == head && code == Some(60007)
                else
                  && code == None && |call.events| == |head| + 1 && head <= call.events
                  && IsWholeBody(streaming, ctx.status, ctx.codec.json(ctx.codec.utf8(bytes).value).value, call.events[|head|])
  {
  }

  // ---------------------------------------------------------------- recover

  /** The view once recovery is through with the requests `todo`. */
  function AllDone(v: View, todo: seq<nat>): View
    decreases |todo|
  {
    if todo == [] then v else SetPhase(AllDone(v, todo[..|todo| - 1]), todo[|todo| - 1], Done)
  }

  lemma {:induction false} AllDoneKeeps(v: View, todo: seq<nat>, r: nat)
    requires r in v.requests
    ensures r in AllDone(v, todo).requests
    ensures AllDone(v, todo).requests[r] == v.requests[r].(phase := AllDone(v, todo).requests[r].phase)
    ensures r in todo ==> AllDone(v, todo).requests[r].phase == Done
    decreases |todo|
  {
    if todo != [] {
      AllDoneKeeps(v, todo[..|todo| - 1], r);
    }
  }

  /** Recovery's output for one request, in the log. */
  ghost predicate Recovered(log: Log, v: View, r: nat, output: Output) {
    && r in v.requests
    && output.payload == System.ErrorPayload(v.requests[r], MODEL_PROXY_INTERRUPTED, true, false)
    && StandsAt(log, output.seqNo, v.requests[r], output.payload)
  }

  ghost predicate RecoveredAll(log: Log, v: View, todo: seq<nat>, outputs: seq<Output>) {
    && |outputs| == |todo|
    && forall k :: 0 <= k < |todo| ==> Recovered(log, v, todo[k], outputs[k])
  }

  lemma RecoveredLater(a: Store, b: Store, v: View, todo: seq<nat>, outputs: seq<Output>)
    requires RecoveredAll(a.log, v, todo, outputs) && Later(a, b)
    ensures RecoveredAll(b.log, v, todo, outputs)
  {
    forall k | 0 <= k < |todo| ensures Recovered(b.log, v, todo[k], outputs[k]) {
      assert Recovered(a.log, v, todo[k], outputs[k]);
      assert At(b.log, outputs[k].seqNo) == At(a.log, outputs[k].seqNo);
    }
  }

  /** How recovery ends. */
  datatype RecoveryEnd =
    | AllRecovered
    | ScanFailed(outcome: ScanOutcome)
    | Withdrawn
    | LostRecovery(verdict: Verdict)
    | RecoveryOverflow(r: nat)

  /** Why recovery did not publish the output of `r`. */
  ghost predicate Excused(gate: Gate, server: Server, heard: seq<Reply>, v: View, r: nat, size: Payload -> nat,
                          limit: nat, maxRetries: nat, end: RecoveryEnd)
    reads gate, server
  {
    match end
    case Withdrawn => !gate.open || server.stopped
    case LostRecovery(verdict) => WasLost(heard, server.heard, verdict, maxRetries)
    case RecoveryOverflow(q) =>
      && q == r && r in v.requests
      && size(System.ErrorPayload(v.requests[r], MODEL_PROXY_INTERRUPTED, true, false)) > limit
    case _ => false
  }

  /** One turn of the loop of `recover`. */
  method RecoverOne(worker: Worker, gate: Gate, server: Server, r: nat, size: Payload -> nat, ghost v: View,
                    ghost done: seq<nat>, maxRetries: nat)
    returns (output: Option<Output>, end: RecoveryEnd)
    requires worker.Valid() && server.Valid() && r in worker.requests && r in v.requests
    requires worker.AsView() == AllDone(v, done)
    modifies worker.requests.Values, gate, server
    ensures worker.Valid() && server.Valid() && Later(old(server.st), server.st)
    ensures old(server.heard) <= server.heard
    ensures match output
            case Some(o) =>
              Recovered(server.st.log, v, r, o) && worker.AsView() == AllDone(v, done + [r]) && end == AllRecovered
            case None =>
              && worker.AsView() == old(worker.AsView())
              && Excused(gate, server, old(server.heard), v, r, size, worker.cfg.maxPayloadBytes, maxRetries, end)
  {
    var state := worker.requests[r];
    AllDoneKeeps(v, done, r);
    assert worker.AsView().requests[r] == state.Value();
    var payload := System.ErrorPayload(state.Value(), MODEL_PROXY_INTERRUPTED, true, false);
    assert payload == System.ErrorPayload(v.requests[r], MODEL_PROXY_INTERRUPTED, true, false);
    var emitted := Emit(gate, server, state.Value(), payload, size(payload) > worker.cfg.maxPayloadBytes, maxRetries);
    match emitted {
      case Withheld => return None, Withdrawn;
      case Oversized => return None, RecoveryOverflow(r);
      case Lost(verdict) => return None, LostRecovery(verdict);
      case Placed(q) =>
        worker.MarkDone(state);
        assert (done + [r])[..|done|] == done;
        return Some(Output(q, payload)), AllRecovered;
    }
  }

  /** How far recovery has come. */
  ghost predicate Recovering(start: Store, now: Store, v: View, view: View, todo: seq<nat>, outputs: seq<Output>) {
    && Later(start, now) && |outputs| <= |todo|
    && RecoveredAll(now.log, v, todo[..|outputs|], outputs) && view == AllDone(v, todo[..|outputs|])
  }

  lemma RecoveringLater(start: Store, a: Store, b: Store, v: View, view: View, todo: seq<nat>, outputs: seq<Output>)
    requires Recovering(start, a, v, view, todo, outputs) && Later(a, b)
    ensures Recovering(start, b, v, view, todo, outputs)
  {
    LaterTransitive(start, a, b);
    RecoveredLater(a, b, v, todo[..|outputs|], outputs);
  }

  lemma RecoveringNext(start: Store, now: Store, v: View, view: View, view': View, todo: seq<nat>,
                       outputs: seq<Output>, output: Output)
    requires Recovering(start, now, v, view, todo, outputs) && |outputs| < |todo|
    requires Recovered(now.log, v, todo[|outputs|], output)
    requires view' == AllDone(v, todo[..|outputs|] + [todo[|outputs|]])
    ensures Recovering(start, now, v, view', todo, outputs + [output])
  {
    assert todo[..|outputs| + 1] == todo[..|outputs|] + [todo[|outputs|]];
  }

  /** Recovery published the outputs of `todo`, or the first that it did not has its reason. */
  ghost predicate EndsWell(gate: Gate, server: Server, heard: seq<Reply>, v: View, todo: seq<nat>, done: nat,
                           size: Payload -> nat, limit: nat, maxRetries: nat, end: RecoveryEnd)
    reads gate, server
  {
    if end.AllRecovered? then done == |todo|
    else
      && done < |todo|
      && exists before ::
           heard <= before && Excused(gate, server, before, v, todo[done], size, limit, maxRetries, end)
  }

  /** The loop of `recover` over the unfinished requests: each gets one output, in seq order,
      and is done; the first that can not be published ends recovery. */
  method PublishRecovery(worker: Worker, gate: Gate, server: Server, todo: seq<nat>, size: Payload -> nat, maxRetries: nat)
    returns (end: RecoveryEnd, outputs: seq<Output>)
    requires worker.Valid() && server.Valid() && forall i :: 0 <= i < |todo| ==> todo[i] in worker.requests
    modifies worker.requests.Values, gate, server
    ensures worker.Valid() && server.Valid()
    ensures Recovering(old(server.st), server.st, old(worker.AsView()), worker.AsView(), todo, outputs)
    ensures EndsWell(gate, server, old(server.heard), old(worker.AsView()), todo, |outputs|, size,
                     worker.cfg.maxPayloadBytes, maxRetries, end)
  {
    ghost var v, start := worker.AsView(), server.st;
    LaterReflexive(start);
    outputs := [];
    assert todo[..0] == [];
    while |outputs| < |todo|
      invariant worker.Valid() && server.Valid() && old(server.heard) <= server.heard
      invariant Recovering(start, server.st, v, worker.AsView(), todo, outputs)
      decreases |todo| - |outputs|
    {
      ghost var n := |outputs|;
      ghost var before, view := server.st, worker.AsView();
      var output;
      output, end := RecoverOne(worker, gate, server, todo[|outputs|], size, v, todo[..n], maxRetries);
      RecoveringLater(start, before, server.st, v, view, todo, outputs);
      if output.None? {
        return;
      }
      RecoveringNext(start, server.st, v, view, worker.AsView(), todo, outputs, output.value);
      outputs := outputs + [output.value];
    }
    end := AllRecovered;
  }

  /** What recovery of the state `v` comes to. */
  ghost predicate Settles(now: Store, v: View, view: View, todo: seq<nat>, outputs: seq<Output>) {
    System.Planned(v, todo) && RecoveredAll(now.log, v, todo, outputs) && view == AllDone(v, todo)
  }

  /** The part of `recover` after the scan. */
  method SettleSnapshot(worker: Worker, gate: Gate, server: Server, target: nat, size: Payload -> nat, maxRetries: nat)
    returns (end: RecoveryEnd, todo: seq<nat>, outputs: seq<Output>)
    requires worker.Valid() && server.Valid()
    modifies worker`lastSeenSeq, worker.requests.Values, gate, server
    ensures worker.Valid() && server.Valid() && Later(old(server.st), server.st)
    ensures System.Planned(old(worker.AsView()), todo)
    ensures EndsWell(gate, server, old(server.heard), old(worker.AsView()), todo, |outputs|, size,
                     worker.cfg.maxPayloadBytes, maxRetries, end)
    ensures end.AllRecovered? ==>
              && Settles(server.st, old(worker.AsView()), worker.AsView(), todo, outputs)
              && worker.lastSeenSeq == target
  {
    todo := worker.Unfinished();
    PlannedAsUnfinished(worker, todo);
    end, outputs := SettleTodo(worker, gate, server, target, todo, size, maxRetries);
  }

  lemma PlannedAsUnfinished(worker: Worker, todo: seq<nat>)
    requires forall i, j :: 0 <= i < j < |todo| ==> todo[i] < todo[j]
    requires forall r :: r in todo <==> r in worker.requests && worker.AsView().requests[r].terminal.None?
    ensures System.Planned(worker.AsView(), todo) && forall i :: 0 <= i < |todo| ==> todo[i] in worker.requests
  {
    assert forall i :: 0 <= i < |todo| ==> todo[i] in todo;
  }

  method SettleTodo(worker: Worker, gate: Gate, server: Server, target: nat, todo: seq<nat>, size: Payload -> nat,
                    maxRetries: nat)
    returns (end: RecoveryEnd, outputs: seq<Output>)
    requires worker.Valid() && server.Valid() && forall i :: 0 <= i < |todo| ==> todo[i] in worker.requests
    modifies worker`lastSeenSeq, worker.requests.Values, gate, server
    ensures worker.Valid() && server.Valid() && Later(old(server.st), server.st)
    ensures EndsWell(gate, server, old(server.heard), old(worker.AsView()), todo, |outputs|, size,
                     worker.cfg.maxPayloadBytes, maxRetries, end)
    ensures end.AllRecovered? ==>
              && RecoveredAll(server.st.log, old(worker.AsView()), todo, outputs)
              && worker.AsView() == AllDone(old(worker.AsView()), todo) && worker.lastSeenSeq == target
  {
    ghost var v, start := worker.AsView(), server.st;
    end, outputs := PublishRecovery(worker, gate, server, todo, size, maxRetries);
    if end.AllRecovered? {
      WholeRecovery(start, server.st, v, worker.AsView(), todo, outputs);
      worker.ReadUpTo(target);
    }
  }

  /** What the scan of `recover` may report: with honest pages only that they run out before
      the target, or that an entry of the snapshot can not be folded. */
  ghost predicate ScanReport(outcome: ScanOutcome, target: nat, pages: seq<Page>, log: Log, cfg: Config) {
    && !outcome.Complete?
    && (outcome.Unavailable? ==> Worker.PagesEnd(pages, |pages|) <= target)
    && (target <= |log| && HonestPages(log, 1, pages) ==>
          outcome.Unavailable? || (outcome.Raised? && Fold(log[..target], cfg).None?))
  }

  /** `recover` after its snapshot `target` was taken. When the pages are honest and it
      completes, it has read exactly the snapshot and published one output, of the shape that
      ends the request, for exactly the requests the snapshot leaves unfinished; when it does
      not complete, the end says why. */
  method Recover(worker: Worker, gate: Gate, server: Server, target: nat, pages: seq<Page>, size: Payload -> nat,
                 ghost log: Log, maxRetries: nat)
    returns (end: RecoveryEnd, todo: seq<nat>, outputs: seq<Output>)
    requires worker.Valid() && worker.AsView() == EMPTY_VIEW && !worker.stopped && server.Valid()
    modifies worker, worker.requests.Values, gate, server
    ensures worker.Valid() && server.Valid() && Later(old(server.st), server.st)
    ensures end.AllRecovered? ==> worker.lastSeenSeq == target
    ensures end.ScanFailed? ==> ScanReport(end.outcome, target, pages, log, worker.cfg)
    ensures !end.ScanFailed? && target <= |log| && HonestPages(log, 1, pages) ==>
              && Fold(log[..target], worker.cfg).Some?
              && var v := Fold(log[..target], worker.cfg).value;
              && System.Planned(v, todo)
              && EndsWell(gate, server, old(server.heard), v, todo, |outputs|, size, worker.cfg.maxPayloadBytes,
                          maxRetries, end)
              && (end.AllRecovered? ==> Settles(server.st, v, worker.AsView(), todo, outputs))
  {
    LaterReflexive(server.st);
    todo, outputs := [], [];
    var outcome := worker.ScanHistory(target, pages, log);
    if !outcome.Complete? {
      return ScanFailed(outcome), todo, outputs;
    }
    end, todo, outputs := SettleSnapshot(worker, gate, server, target, size, maxRetries);
  }

  /** Nor does recovery ever overflow. */
  lemma RecoveryNeverOverflows(cfg: Config, st: State, size: Payload -> nat)
    requires Fallback.IsStreamId(st.streamId) && 0 < st.requestSeq < Fallback.U64
    requires Fallback.LEAST_PAYLOAD_LIMIT <= cfg.maxPayloadBytes
    requires MeasuredAs(size, st, MODEL_PROXY_INTERRUPTED, true, false)
    ensures size(System.ErrorPayload(st, MODEL_PROXY_INTERRUPTED, true, false)) <= cfg.maxPayloadBytes
  {
    ErrorOutputFits(size, cfg.maxPayloadBytes, st, MODEL_PROXY_INTERRUPTED, true, false);
  }

  lemma WholeRecovery(start: Store, now: Store, v: View, view: View, todo: seq<nat>, outputs: seq<Output>)
    requires Recovering(start, now, v, view, todo, outputs) && |outputs| == |todo|
    ensures RecoveredAll(now.log, v, todo, outputs) && view == AllDone(v, todo)
  {
    assert todo[..|todo|] == todo;
  }
}
