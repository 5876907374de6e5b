/** The caller's side: creating a call, iterating a stream, closing it. */
module OpenAI {
  import opened Protocol
  import Progress
  import opened Delivery
  import opened Consumption
  import opened Rpc
  import opened Publishing
  import opened Subscribing
  import View = SubscriptionView

  /** How one `__next__` ends. `Blocked` stands for waiting in `next_message`. */
  datatype Step =
    | Chunk(seqNo: nat, body: Json)
    | StopIteration
    | Cancelled(seqNo: nat)
    | ApiError(seqNo: nat, status: int)
    | ProtocolFailure(message: Message)
    | Failed(error: View.SubError)
    | Blocked

  /** `make_api_error` has nothing to report. */
  predicate Succeeds(status: int, endStatus: Option<EndStatus>) {
    endStatus != Some(EndStatus.Failed) && 200 <= status <= 299
  }

  /** The bodyless result is not handed out. */
  predicate IsSilent(item: Item) {
    item.Business? && item.message.entry.payload.InferResult? && item.message.entry.payload.resultBody.None?
  }

  function StepOf(item: Item): Step
    requires IsReply(item.message.entry) && !IsSilent(item)
  {
    if item.Broken? then ProtocolFailure(item.message)
    else
      var q := item.message.seqNo;
      match item.message.entry.payload
      case InferAppend(_, _, _, chunk) => Chunk(q, chunk)
      case InferCancel(_, _) => Step.Cancelled(q)
      case InferEnd(_, _, status, endStatus, _) =>
        if Succeeds(status, Some(endStatus)) then StopIteration else ApiError(q, status)
      case InferResult(_, _, status, _) =>
        if Succeeds(status, None) then StopIteration else ApiError(q, status)
      case _ => assert false; Blocked
  }

  /** What there is to say once the queue is empty. */
  function StepWithoutItem(k: View.CallState): Step {
    match View.NextOf(k.(queue := []))
    case Raises(error) => Step.Failed(error)
    case Finished => StopIteration
    case _ => Blocked
  }

  /** Everything in a queue is a reply; nothing else is ever delivered. */
  ghost predicate AllReplies(items: seq<Item>) {
    forall i :: 0 <= i < |items| ==> IsReply(items[i].message.entry)
  }

  /** `taken` is what one `__next__` takes off the queue of `k` before it ends with `step`. */
  ghost predicate Takes(k: View.CallState, taken: seq<Item>, step: Step)
    requires AllReplies(k.queue)
  {
    && taken <= k.queue
    && (forall i :: 0 <= i < |taken| - 1 ==> IsSilent(taken[i]))
    && if taken != [] && !IsSilent(taken[|taken| - 1]) then step == StepOf(taken[|taken| - 1])
       else taken == k.queue && step == StepWithoutItem(k)
  }

  /** Silent items only have been taken so far. */
  ghost predicate Drains(k: View.CallState, taken: seq<Item>, rest: seq<Item>) {
    k.queue == taken + rest && AllReplies(k.queue) && forall i :: 0 <= i < |taken| ==> IsSilent(taken[i])
  }

  lemma ItemTaken(k: View.CallState, taken: seq<Item>, rest: seq<Item>)
    requires Drains(k, taken, rest) && rest != []
    ensures IsReply(rest[0].message.entry)
    ensures IsSilent(rest[0]) ==> Drains(k, taken + [rest[0]], rest[1..])
    ensures !IsSilent(rest[0]) ==> Takes(k, taken + [rest[0]], StepOf(rest[0]))
    ensures k.queue == taken + [rest[0]] + rest[1..] && AllReplies(rest[1..])
  {
    assert k.queue[|taken|] == rest[0];
    assert k.queue == taken + [rest[0]] + rest[1..];
    assert forall i :: 0 <= i < |rest[1..]| ==> rest[1..][i] == k.queue[|taken| + 1 + i];
  }

  lemma {:induction false} SilentChunks(items: seq<Item>, silent: seq<Item>)
    requires forall i :: 0 <= i < |silent| ==> IsSilent(silent[i])
    ensures Chunks(items + silent) == Chunks(items)
    decreases |silent|
  {
    if silent == [] {
      assert items + silent == items;
    } else {
      var rest, last := silent[..|silent| - 1], silent[|silent| - 1];
      SilentChunks(items, rest);
      assert items + silent == items + rest + [last];
      ChunksStep(items + rest, last);
    }
  }

  /** One `__next__` hands out the chunk it takes, or none. */
  lemma StepChunks(k: View.CallState, given: seq<Item>, taken: seq<Item>, step: Step)
    requires AllReplies(k.queue) && Takes(k, taken, step)
    ensures Chunks(given + taken) == Chunks(given) + if step.Chunk? then [step.body] else []
  {
    if taken != [] {
      var rest, last := taken[..|taken| - 1], taken[|taken| - 1];
      SilentChunks(given, rest);
      assert given + taken == given + rest + [last];
      ChunksStep(given + rest, last);
    } else {
      assert given + taken == given;
    }
  }

  /** The step ends the iteration because of the item it took. */
  predicate EndsWithItem(taken: seq<Item>, step: Step) {
    taken != [] && !IsSilent(taken[|taken| - 1]) && !step.Chunk?
  }

  /** A final item ends the iteration, and every other item does not. */
  lemma FinalEndsIteration(k: View.CallState, taken: seq<Item>, step: Step)
    requires AllReplies(k.queue) && Takes(k, taken, step) && taken != [] && k.streaming
    ensures View.IsFinal(true, taken[|taken| - 1]) <==> EndsWithItem(taken, step)
  {
  }

  /** The iteration stops for two reasons only: the call was closed, or the item taken is a
      successful terminal. With an open call and an empty queue it waits. */
  lemma StopsOnlyAtAnEnd(k: View.CallState, taken: seq<Item>, step: Step)
    requires AllReplies(k.queue) && Takes(k, taken, step) && step.StopIteration?
    ensures (k.localClosed && k.error.None?) || (taken != [] && IsSuccess(taken[|taken| - 1]))
  {
  }

  /** A result with a body or an end that did not fail, with a status of success. */
  predicate IsSuccess(item: Item) {
    item.Business? &&
    match item.message.entry.payload
    case InferResult(_, _, status, body) => body.Some? && 200 <= status <= 299
    case InferEnd(_, _, status, endStatus, _) => !endStatus.Failed? && 200 <= status <= 299
    case _ => false
  }

  /** What the item taken says is what the step says. */
  lemma StepSaysWhatItemSays(k: View.CallState, taken: seq<Item>, step: Step)
    requires AllReplies(k.queue) && Takes(k, taken, step) && taken != [] && !IsSilent(taken[|taken| - 1])
    ensures var item := taken[|taken| - 1];
            var payload := item.message.entry.payload;
            && (step.StopIteration? <==> IsSuccess(item))
            && (step.ProtocolFailure? <==> item.Broken?)
            && (step.Chunk? <==> item.Business? && payload.InferAppend?)
            && (step.Chunk? ==> step.body == payload.chunk)
            && (step.Cancelled? <==> item.Business? && payload.InferCancel?)
            && (step.ApiError? ==> item.Business? && (payload.InferResult? || payload.InferEnd?) && step.status == payload.status)
            && (step.ApiError? || step.Cancelled? || step.Chunk? ==> step.seqNo == item.message.seqNo)
            && !step.Failed? && !step.Blocked?
  {
  }

  class OpenAIStream {
    const sub: Subscription
    const call: Call
    var done: bool
    /** What was taken off the queue, and the chunk bodies handed out. */
    ghost var given: seq<Item>
    ghost var yielded: seq<Json>

    ghost predicate Valid()
      reads this
    {
      yielded == Chunks(given)
    }

    constructor (sub: Subscription, call: Call)
      ensures Valid() && this.sub == sub && this.call == call && !done && given == [] && yielded == []
    {
      this.sub, this.call, done, given, yielded := sub, call, false, [], [];
    }

    /** `__next__`. The bodies handed out are those of the appends taken off the queue, and
        once it has raised anything it takes nothing any more. */
    method Next() returns (step: Step, ghost taken: seq<Item>)
      requires Valid() && sub.Valid() && sub.Owns(call) && AllReplies(call.queue)
      modifies this, call`queue
      ensures Valid() && sub.Valid() && sub.Owns(call) && AllReplies(call.queue)
      ensures given == old(given) + taken && old(call.queue) == taken + call.queue
      ensures yielded == old(yielded) + if step.Chunk? then [step.body] else []
      ensures old(done) ==> step == StopIteration && taken == [] && done
      ensures !old(done) ==> Takes(old(call.Value()), taken, step) && done == !(step.Chunk? || step.Blocked?)
    {
      taken := [];
      if done {
        assert given + taken == given;
        return StopIteration, taken;
      }
      ghost var k := call.Value();
      step, taken := Look();
      done := !(step.Chunk? || step.Blocked?);
      StepChunks(k, given, taken, step);
      given := given + taken;
      yielded := yielded + if step.Chunk? then [step.body] else [];
    }

    /** Its loop over `next_message`. */
    method Look() returns (step: Step, ghost taken: seq<Item>)
      requires sub.Valid() && sub.Owns(call) && AllReplies(call.queue)
      modifies call`queue
      ensures sub.Valid() && old(call.queue) == taken + call.queue && AllReplies(call.queue)
      ensures Takes(old(call.Value()), taken, step)
    {
      ghost var k := call.Value();
      taken := [];
      while true
        invariant sub.Valid() && sub.Owns(call)
        invariant Drains(k, taken, call.queue) && call.Value() == k.(queue := call.queue)
        decreases |call.queue|
      {
        ghost var before := call.queue;
        var look := sub.NextMessage(call);
        if look.Given? {
          ItemTaken(k, taken, before);
          taken := taken + [look.item];
          if !IsSilent(look.item) {
            return StepOf(look.item), taken;
          }
        } else {
          assert taken == k.queue;
          return match look
                 case Raises(error) => Step.Failed(error)
                 case Finished => StopIteration
                 case _ => Blocked, taken;
        }
      }
    }
  }

  // ---------------------------------------------------------------- _create

  datatype Created =
    | Returned(frozen: Entry, q: nat)
    | NotRegistered(uuid: nat, registration: Registration)
    | NotPublished(tried: Option<nat>, verdict: Verdict)

  /** The subscription once a new call's request is registered. */
  ghost function Registered(s: View.Sub, place: nat, created: Created, draft: Draft): View.Sub
    requires place < |s.calls|
  {
    match created
    case Returned(frozen, _) => View.Register(s, place, frozen)
    case NotPublished(Some(uuid), _) => View.Register(s, place, Freeze(draft, uuid))
    case _ => s
  }

  /** What became of the call: it waits for its request to be read, or it has left the
      indexes again. */
  ghost function Settled(s: View.Sub, place: nat, created: Created, draft: Draft): View.Sub
    requires place < |s.calls|
  {
    var registered := Registered(s, place, created, draft);
    if created.Returned? then View.Published(registered, place, created.q)
    else View.PublicationFailed(registered, place)
  }

  /** A verdict that is sound, and that the replies account for. */
  ghost predicate Sound(a: Store, b: Store, heard: seq<Reply>, now: seq<Reply>, draft: Draft, uuid: Option<nat>,
                        verdict: Verdict, maxRetries: nat, stopped: bool) {
    exists publishes: nat ::
      && Justified(a, b, draft, uuid, verdict, publishes)
      && Explained(heard, now, verdict, uuid, publishes, maxRetries, stopped)
  }

  /** What the caller learns, and why: the server goes from `a` to `b` and the replies from
      `heard` to `now`, while `s` is what the subscription was before. */
  ghost predicate Concluded(a: Store, b: Store, heard: seq<Reply>, now: seq<Reply>, s: View.Sub, place: nat,
                            created: Created, draft: Draft, maxRetries: nat, stopped: bool)
    requires place < |s.calls|
  {
    && Later(a, b)
    && match created
       case Returned(frozen, q) =>
         && frozen == Freeze(draft, frozen.uuid) && RegistrationOf(s, place, frozen.uuid).Done?
         && Sound(a, b, heard, now, draft, Some(frozen.uuid), Published(q), maxRetries, stopped)
       case NotRegistered(uuid, registration) =>
         && registration == RegistrationOf(s, place, uuid) && !registration.Done?
         && uuid in b.mine && uuid !in a.mine && b.inFlight == a.inFlight
         && Obtained(heard, now, uuid, maxRetries)
       case NotPublished(tried, verdict) =>
         && !verdict.Published? && !verdict.Vetoed?
         && (tried.Some? ==> RegistrationOf(s, place, tried.value).Done?)
         && Sound(a, b, heard, now, draft, tried, verdict, maxRetries, stopped)
  }

  /** `_create` up to the wait for a result, once the call object exists. The frozen request
      is registered under its UUID before the first attempt to publish it. */
  method Submit(sub: Subscription, call: Call, server: Server, draft: Draft, maxRetries: nat)
    returns (created: Created)
    requires sub.Valid() && sub.Owns(call) && server.Valid()
    modifies sub, sub.calls, server
    ensures sub.Valid() && server.Valid() && call.place < |old(sub.AsView()).calls|
    ensures Concluded(old(server.st), server.st, old(server.heard), server.heard, old(sub.AsView()), call.place,
                      created, draft, maxRetries, server.stopped)
    ensures sub.AsView() == Settled(old(sub.AsView()), call.place, created, draft)
  {
    sub.InView(call);
    ghost var start, heard := server.st, server.heard;
    var obtained, _ := CallRpc(server, GetUuid, maxRetries, true, true);
    if obtained.Value? {
      created := RegisterAndOffer(sub, call, server, draft, obtained.value, maxRetries, start, heard);
    } else {
      sub.PublicationFailed(call);
      var verdict := if obtained.Stopped? then NeverStarted else PublishError(NOT_COMMITTED, None, obtained.status);
      NothingObtained(start, server.st, heard, server.heard, draft, verdict, maxRetries, server.stopped);
      created := NotPublished(None, verdict);
    }
  }

  lemma NothingObtained(a: Store, b: Store, heard: seq<Reply>, now: seq<Reply>, draft: Draft, verdict: Verdict,
                        maxRetries: nat, stopped: bool)
    requires Later(a, b) && b.inFlight == a.inFlight
    requires Explained(heard, now, verdict, None, 0, maxRetries, stopped)
    requires verdict.PublishError? ==> verdict.eventUuid.None?
    ensures Sound(a, b, heard, now, draft, None, verdict, maxRetries, stopped)
  {
    assert Justified(a, b, draft, None, verdict, 0);
  }

  /** What follows once the UUID of the request is known. */
  method RegisterAndOffer(sub: Subscription, call: Call, server: Server, draft: Draft, uuid: nat, maxRetries: nat,
                          ghost start: Store, ghost heard: seq<Reply>)
    returns (created: Created)
    requires sub.Valid() && sub.Owns(call) && server.Valid() && Consistent(start) && Later(start, server.st)
    requires server.st.inFlight == start.inFlight && Obtained(heard, server.heard, uuid, maxRetries)
    requires uuid in server.st.mine && uuid !in start.mine && !HasUuid(server.st.log, uuid)
    modifies sub, sub.calls, server
    ensures sub.Valid() && server.Valid() && call.place < |old(sub.AsView()).calls|
    ensures Concluded(start, server.st, heard, server.heard, old(sub.AsView()), call.place, created, draft, maxRetries,
                      server.stopped)
    ensures sub.AsView() == Settled(old(sub.AsView()), call.place, created, draft)
  {
    sub.InView(call);
    var frozen := Freeze(draft, uuid);
    var registration := sub.Register(call, frozen);
    if registration.Done? {
      var verdict := Offer(sub, call, server, draft, uuid, maxRetries, start, heard);
      created := if verdict.Published? then Returned(frozen, verdict.seqNo) else NotPublished(Some(uuid), verdict);
    } else {
      sub.PublicationFailed(call);
      created := NotRegistered(uuid, registration);
    }
  }

  /** The registered request is published, and the subscription is told the conclusion. */
  method Offer(sub: Subscription, call: Call, server: Server, draft: Draft, uuid: nat, maxRetries: nat,
               ghost start: Store, ghost heard: seq<Reply>)
    returns (verdict: Verdict)
    requires sub.Valid() && sub.Owns(call) && server.Valid() && Consistent(start) && Later(start, server.st)
    requires server.st.inFlight == start.inFlight && Obtained(heard, server.heard, uuid, maxRetries)
    requires uuid in server.st.mine && uuid !in start.mine && !HasUuid(server.st.log, uuid)
    modifies sub, sub.calls, server
    ensures sub.Valid() && server.Valid() && call.place < |old(sub.AsView()).calls|
    ensures Later(start, server.st) && !verdict.Vetoed?
    ensures Sound(start, server.st, heard, server.heard, draft, Some(uuid), verdict, maxRetries, server.stopped)
    ensures sub.AsView() == if verdict.Published? then View.Published(old(sub.AsView()), call.place, verdict.seqNo)
                            else View.PublicationFailed(old(sub.AsView()), call.place)
  {
    sub.InView(call);
    verdict := PublishObtained(server, draft, uuid, maxRetries, start, heard);
    if verdict.Published? {
      var _ := sub.Published(call, verdict.seqNo);
    } else {
      sub.PublicationFailed(call);
    }
  }

  method PublishObtained(server: Server, draft: Draft, uuid: nat, maxRetries: nat, ghost start: Store,
                         ghost heard: seq<Reply>)
    returns (verdict: Verdict)
    requires server.Valid() && Consistent(start) && Later(start, server.st)
    requires server.st.inFlight == start.inFlight && Obtained(heard, server.heard, uuid, maxRetries)
    requires uuid in server.st.mine && uuid !in start.mine && !HasUuid(server.st.log, uuid)
    modifies server
    ensures server.Valid() && Later(start, server.st) && !verdict.Vetoed?
    ensures Sound(start, server.st, heard, server.heard, draft, Some(uuid), verdict, maxRetries, server.stopped)
  {
    ghost var publishes: nat, mid := 0, server.heard;
    verdict, publishes := PublishFrozen(server, draft, uuid, maxRetries, true, true, start);
    assert ExplainedFrom(heard, mid, server.heard, verdict, uuid, publishes, maxRetries, server.stopped);
    assert Explained(heard, server.heard, verdict, Some(uuid), publishes, maxRetries, server.stopped);
  }

  /** `_create`: nothing is begun once the subscription has failed. */
  method Create(sub: Subscription, server: Server, channel: nat, principal: nat, request: Payload, maxRetries: nat)
    returns (call: Call?, created: Created)
    requires sub.Valid() && server.Valid() && request.InferRequest?
    modifies sub, sub.calls, server
    ensures sub.Valid() && server.Valid()
    ensures call == null <==> old(sub.error).Some?
    ensures call == null ==>
              sub.AsView() == old(sub.AsView()) && server.st == old(server.st) && server.heard == old(server.heard)
    ensures call != null ==>
              var begun := View.Begin(old(sub.AsView()), request.streamId, request.streaming);
              var place, draft := |old(sub.AsView()).calls|, Draft(channel, principal, request);
              && Concluded(old(server.st), server.st, old(server.heard), server.heard, begun, place, created, draft,
                           maxRetries, server.stopped)
              && sub.AsView() == Settled(begun, place, created, draft)
  {
    created := NotRegistered(0, SubscriptionFailed);
    call := sub.Begin(request.streamId, request.streaming);
    if call != null {
      created := Submit(sub, call, server, Draft(channel, principal, request), maxRetries);
    }
  }

  // ---------------------------------------------------------------- an ordinary call's response

  /** How an ordinary `_create` ends after its wait. `Pending` stands for the wait itself. */
  datatype Answer =
    | Response(seqNo: nat, status: int, body: Json)
    | ErrorStatus(seqNo: nat, status: int)
    | BrokenResponse(message: Message)
    | SubscriptionLost(error: View.SubError)
    | CallClosed
    | Pending

  /** An ordinary call is only ever given results, and a message among them has a body. */
  predicate IsOrdinaryItem(item: Item) {
    item.message.entry.payload.InferResult?
    && (item.Business? ==> item.message.entry.payload.resultBody.Some?)
  }

  function AnswerOf(item: Item): Answer
    requires IsOrdinaryItem(item)
  {
    var payload := item.message.entry.payload;
    if item.Broken? then BrokenResponse(item.message)
    else if Succeeds(payload.status, None) then
      Response(item.message.seqNo, payload.status, payload.resultBody.value)
    else ErrorStatus(item.message.seqNo, payload.status)
  }

  lemma OrdinaryItems(log: Log, r: nat)
    requires IsRequest(log, r) && !At(log, r).payload.streaming
    ensures forall item :: item in Consume(log, r).items ==> IsOrdinaryItem(item)
  {
    OrdinaryTakesFirstResult(log, r);
  }

  /** The end of `_create` for an ordinary call: the first item is its response. */
  method Await(sub: Subscription, call: Call) returns (answer: Answer)
    requires sub.Valid() && sub.Owns(call) && forall item :: item in call.queue ==> IsOrdinaryItem(item)
    modifies call`queue
    ensures sub.Valid()
    ensures old(call.queue) != [] ==> answer == AnswerOf(old(call.queue)[0]) && call.queue == old(call.queue)[1..]
    ensures old(call.queue) == [] ==>
              && call.queue == []
              && answer == if call.error.Some? then SubscriptionLost(call.error.value)
                           else if call.localClosed then CallClosed else Pending
  {
    var look := sub.NextMessage(call);
    match look
    case Given(item) => return AnswerOf(item);
    case Raises(error) => return SubscriptionLost(error);
    case Finished => return CallClosed;
    case Waits => return Pending;
  }

  // ---------------------------------------------------------------- _close_call

  datatype CloseOutcome = Waiting | Closes(found: Option<Verdict>)

  /** The cancel a closer publishes. */
  function CancelOf(k: View.CallState, channel: nat, principal: nat): Draft
    requires k.requestSeq.Some?
  {
    Draft(channel, principal, InferCancel(k.streamId, k.requestSeq.value))
  }

  /** Once it is committed, such a cancel is the terminal of a stream that has none. */
  lemma CancelEndsItsStream(log: Log, r: nat, k: View.CallState, channel: nat, principal: nat, uuid: nat)
    requires IsRequest(log, r) && At(log, r).payload.streaming && Progress.Track(log, r).Progress?
    requires k.requestSeq == Some(r) && k.streamId == At(log, r).payload.streamId && channel == At(log, r).channel
    ensures var more := log + [Freeze(CancelOf(k, channel, principal), uuid)];
            && IsRequest(more, r) && Progress.Track(more, r).Progress?
            && Progress.Track(more, r).terminal == if Progress.Track(log, r).terminal.Some? then Progress.Track(log, r).terminal else Some(|more|)
  {
    Progress.TrackStep(log, r, Freeze(CancelOf(k, channel, principal), uuid));
  }

  /** A cancel is due: the request was published and has no terminal, and nothing failed. */
  predicate IsCancelDue(failure: Option<View.SubError>, k: View.CallState) {
    failure.None? && k.requestSeq.Some? && !(k.receive.Some? && k.receive.value.terminal)
  }

  /** What the first closer finds out: the sound verdict on its cancel, if that is an error,
      and nothing when no cancel is due. */
  ghost predicate ClosedWith(a: Store, b: Store, heard: seq<Reply>, now: seq<Reply>, cancel: Option<Draft>,
                             publishes: nat, maxRetries: nat, stopped: bool, found: Option<Verdict>) {
    if cancel.Some? then
      exists verdict: Verdict, uuid: Option<nat> ::
        && !verdict.Vetoed? && Justified(a, b, cancel.value, uuid, verdict, publishes)
        && Explained(heard, now, verdict, uuid, publishes, maxRetries, stopped)
        && found == if verdict.PublishError? then Some(verdict) else None
    else found == None && publishes == 0 && b == a && now == heard
  }

  /** `_close_call`: the first closer publishes a cancel exactly for a stream that had no
      terminal, in a subscription that had not failed; it records what it found out, and every
      other closer reports the same. */
  method CloseCall(sub: Subscription, call: Call, server: Server, channel: nat, principal: nat, maxRetries: nat)
    returns (outcome: CloseOutcome, publishes: nat)
    requires sub.Valid() && sub.Owns(call) && server.Valid()
    modifies sub, call, server
    ensures sub.Valid() && server.Valid() && call.place < |old(sub.AsView()).calls|
    ensures Later(old(server.st), server.st)
    ensures old(call.closeStarted && !call.closeDone) ==> outcome == Waiting
    ensures old(call.closeDone) ==> outcome == Closes(old(call.closeError))
    ensures old(call.closeStarted) || old(call.closeDone) ==>
              && publishes == 0 && sub.AsView() == old(sub.AsView())
              && server.st == old(server.st) && server.heard == old(server.heard)
    ensures !old(call.closeStarted) && !old(call.closeDone) ==>
              && outcome == Closes(call.closeError) && call.closeDone
              && sub.AsView() == View.CloseEnd(View.CloseBegin(old(sub.AsView()), call.place), call.place, call.closeError)
              && ClosedWith(old(server.st), server.st, old(server.heard), server.heard,
                            if IsCancelDue(old(sub.error), old(call.Value()))
                            then Some(CancelOf(old(call.Value()), channel, principal)) else None,
                            publishes, maxRetries, server.stopped, call.closeError)
    ensures publishes <= maxRetries + 1 && (old(server.stopped) ==> publishes == 0)
  {
    LaterReflexive(server.st);
    sub.InView(call);
    publishes := 0;
    var turn := sub.CloseBegin(call);
    match turn
    case WaitForCloser => return Waiting, 0;
    case Report(found) => return Closes(found), 0;
    case First(cancels) =>
      var found := None;
      if cancels {
        var cancel := Draft(channel, principal, InferCancel(call.streamId, call.requestSeq.value));
        found, publishes := PublishCancel(server, cancel, maxRetries);
      }
      sub.CloseEnd(call, found);
      return Closes(found), publishes;
  }

  /** The part of `_close_call` outside the lock. */
  method PublishCancel(server: Server, cancel: Draft, maxRetries: nat)
    returns (found: Option<Verdict>, publishes: nat)
    requires server.Valid()
    modifies server
    ensures server.Valid() && Later(old(server.st), server.st)
    ensures ClosedWith(old(server.st), server.st, old(server.heard), server.heard, Some(cancel), publishes,
                       maxRetries, server.stopped, found)
    ensures publishes <= maxRetries + 1 && (old(server.stopped) ==> publishes == 0)
  {
    var verdict, uuid;
    verdict, uuid, publishes := Publish(server, cancel, maxRetries, true, true, false, false);
    found := if verdict.PublishError? then Some(verdict) else None;
  }
}
