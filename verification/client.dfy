/** A consumer client over the log: its calls' threads, its closers and its reader, in any
    interleaving, with publication attempts that commit late. */
module Client {
  import opened Protocol
  import opened Progress
  import opened Delivery
  import opened Consumption
  import Publishing
  import opened SubscriptionView

  /** How far `_create` has come with a call: the call object exists, its frozen request
      is registered, publication returned its seq, or publication was given up. */
  datatype Stage = Begun | Registered | Returned | Abandoned

  datatype Closing = Open | Stopped(cancels: bool) | Cancelling | Closed

  /** What a call's threads have done. `popped` are the items the caller was given,
      `cancels` counts cancel publications, `attempted` that the request was sent. */
  datatype Thread = Thread(stage: Stage, request: Option<Entry>, attempted: bool,
                           popped: seq<Item>, closing: Closing, cancels: nat)

  datatype Client = Client(log: Log, channel: nat, sub: Sub, threads: seq<Thread>)

  function Init(channel: nat, log: Log): Client {
    Client(log, channel, NEW_SUB, [])
  }

  function WithThread(c: Client, i: nat, t: Thread): Client
    requires i < |c.threads|
  {
    c.(threads := c.threads[i := t])
  }

  /** What the reader is subscribed to, apart from system messages. */
  predicate Concerns(c: Client, e: Entry) {
    !e.payload.Foreign? && e.channel == c.channel
  }

  ghost predicate UuidFree(c: Client, uuid: nat) {
    && (forall e :: e in c.log ==> e.uuid != uuid)
    && (forall t :: t in c.threads && t.request.Some? ==> t.request.value.uuid != uuid)
  }

  // ---------------------------------------------------------------- the server and other members

  /** Anything may be published, but nothing under the UUID of a request of this client
      except that request, once an attempt was made. */
  ghost predicate Grows(c: Client, c': Client, e: Entry) {
    && (forall f :: f in c.log ==> f.uuid != e.uuid)
    && (forall i :: 0 <= i < |c.threads| && c.threads[i].request.Some? && c.threads[i].request.value.uuid == e.uuid ==>
          e == c.threads[i].request.value && c.threads[i].attempted)
    && c' == c.(log := c.log + [e])
  }

  // ---------------------------------------------------------------- the caller's thread

  /** The replay anchor is the last seq of the log at some earlier moment. */
  ghost predicate Prepares(c: Client, c': Client, anchor: nat) {
    && c.sub.error.None? && c.sub.initialFromSeq.None? && anchor <= |c.log|
    && c' == c.(sub := c.sub.(initialFromSeq := Some(anchor), lastSeenSeq := anchor))
  }

  ghost predicate Begins(c: Client, c': Client, streamId: string, streaming: bool) {
    && c.sub.error.None? && c.sub.initialFromSeq.Some?
    && c' == c.(sub := Begin(c.sub, streamId, streaming),
                threads := c.threads + [Thread(Begun, None, false, [], Open, 0)])
  }

  /** The request is frozen under a new UUID and registered before its first attempt. */
  ghost predicate Registers(c: Client, c': Client, i: nat, e: Entry) {
    && i < |c.threads| == |c.sub.calls| && c.threads[i].stage.Begun? && c.sub.error.None?
    && UuidFree(c, e.uuid) && e.channel == c.channel && e.payload.InferRequest?
    && e.payload.streamId == c.sub.calls[i].streamId && e.payload.streaming == c.sub.calls[i].streaming
    && c' == WithThread(c, i, c.threads[i].(stage := Registered, request := Some(e)))
             .(sub := Register(c.sub, i, e))
  }

  /** `begin_publication_rpc` lets one attempt through. */
  ghost predicate Attempts(c: Client, c': Client, i: nat) {
    && i < |c.threads| && c.sub.error.None?
    && (c.threads[i].stage.Registered? || c.threads[i].closing.Cancelling?)
    && c' == if c.threads[i].stage.Registered? then WithThread(c, i, c.threads[i].(attempted := true)) else c
  }

  ghost predicate Publishes(c: Client, c': Client, i: nat, q: nat) {
    && i < |c.threads| == |c.sub.calls| && c.threads[i].stage.Registered? && c.threads[i].request.Some?
    && 1 <= q <= |c.log| && At(c.log, q).uuid == c.threads[i].request.value.uuid
    && c' == WithThread(c, i, c.threads[i].(stage := Returned)).(sub := Published(c.sub, i, q))
  }

  ghost predicate Abandons(c: Client, c': Client, i: nat) {
    && i < |c.threads| == |c.sub.calls| && (c.threads[i].stage.Begun? || c.threads[i].stage.Registered?)
    && c' == WithThread(c, i, c.threads[i].(stage := Abandoned)).(sub := PublicationFailed(c.sub, i))
  }

  ghost predicate Pops(c: Client, c': Client, i: nat) {
    && i < |c.threads| == |c.sub.calls| && c.threads[i].stage.Returned? && c.sub.calls[i].queue != []
    && c' == WithThread(c, i, c.threads[i].(popped := c.threads[i].popped + [c.sub.calls[i].queue[0]]))
             .(sub := Pop(c.sub, i))
  }

  // ---------------------------------------------------------------- closers

  /** The first closer of a stream; the others wait for it. */
  ghost predicate BeginsClose(c: Client, c': Client, i: nat) {
    && i < |c.threads| == |c.sub.calls| && c.threads[i].stage.Returned? && !c.sub.calls[i].closeStarted
    && var begun := CloseBegin(c.sub, i);
    && |begun.calls| == |c.sub.calls|
    && c' == WithThread(c, i, c.threads[i].(closing := Stopped(Cancels(begun, i)))).(sub := begun)
  }

  ghost predicate StartsCancel(c: Client, c': Client, i: nat) {
    && i < |c.threads| && c.threads[i].closing == Stopped(true)
    && c' == WithThread(c, i, c.threads[i].(closing := Cancelling, cancels := c.threads[i].cancels + 1))
  }

  /** The same thread records what it found out. */
  ghost predicate EndsClose(c: Client, c': Client, i: nat, error: Option<Publishing.Verdict>) {
    && i < |c.threads| == |c.sub.calls|
    && (c.threads[i].closing.Cancelling? || (c.threads[i].closing == Stopped(false) && error.None?))
    && c' == WithThread(c, i, c.threads[i].(closing := Closed)).(sub := CloseEnd(c.sub, i, error))
  }

  // ---------------------------------------------------------------- the reader

  /** The next message of the stream: nothing the reader is subscribed to lies before it.
      Replayed messages, up to the cursor, change nothing. */
  ghost predicate Reads(c: Client, c': Client, m: Message) {
    && c.sub.initialFromSeq.Some? && c.sub.error.None? && Shaped(c.sub)
    && c.sub.lastSeenSeq < m.seqNo <= |c.log| && m.entry == At(c.log, m.seqNo)
    && (Concerns(c, m.entry) || m.entry.payload.Foreign?)
    && (forall s :: c.sub.lastSeenSeq < s < m.seqNo ==> !Concerns(c, At(c.log, s)))
    && c' == c.(sub := AcceptMessage(c.sub, m).0)
  }

  ghost predicate Fails(c: Client, c': Client, error: SubError) {
    c' == c.(sub := Fail(c.sub, error))
  }

  // ---------------------------------------------------------------- runs

  datatype Action =
    | Grow(e: Entry) | Prepare(anchor: nat) | Start(streamId: string, streaming: bool)
    | Registration(i: nat, e: Entry) | Attempt(i: nat) | Publication(i: nat, q: nat) | Abandon(i: nat) | Popped(i: nat)
    | ClosesFirst(i: nat) | StartCancel(i: nat) | EndClose(i: nat, found: Option<Publishing.Verdict>)
    | Read(m: Message) | Failure(error: SubError)

  ghost predicate Next(c: Client, a: Action, c': Client) {
    match a
    case Grow(e) => Grows(c, c', e)
    case Prepare(anchor) => Prepares(c, c', anchor)
    case Start(streamId, streaming) => Begins(c, c', streamId, streaming)
    case Registration(i, e) => Registers(c, c', i, e)
    case Attempt(i) => Attempts(c, c', i)
    case Publication(i, q) => Publishes(c, c', i, q)
    case Abandon(i) => Abandons(c, c', i)
    case Popped(i) => Pops(c, c', i)
    case ClosesFirst(i) => BeginsClose(c, c', i)
    case StartCancel(i) => StartsCancel(c, c', i)
    case EndClose(i, found) => EndsClose(c, c', i, found)
    case Read(m) => Reads(c, c', m)
    case Failure(error) => Fails(c, c', error)
  }

  ghost predicate StepAt(states: seq<Client>, actions: seq<Action>, k: nat)
    requires |states| == |actions| + 1 && k < |actions|
  {
    Next(states[k], actions[k], states[k + 1])
  }

  ghost predicate DistinctUuids(log: Log) {
    forall p, q :: 0 <= p < q < |log| ==> log[p].uuid != log[q].uuid
  }

  /** A run of one client, over a log that may hold anything to begin with. */
  ghost predicate Run(states: seq<Client>, actions: seq<Action>) {
    && |states| == |actions| + 1
    && states[0] == Init(states[0].channel, states[0].log) && DistinctUuids(states[0].log)
    && forall k: nat :: k < |actions| ==> StepAt(states, actions, k)
  }

  // ---------------------------------------------------------------- the invariant

  function Seen(c: Client): Log
    requires c.sub.lastSeenSeq <= |c.log|
  {
    c.log[..c.sub.lastSeenSeq]
  }

  /** `e` is only ever found in the log as itself. */
  ghost predicate OnlyAs(log: Log, e: Entry) {
    forall q :: 1 <= q <= |log| && At(log, q).uuid == e.uuid ==> At(log, q) == e
  }

  /** The call's request, and where publication says it is. */
  ghost predicate RequestOk(log: Log, channel: nat, t: Thread, k: CallState) {
    && (t.request.Some? ==>
          var e := t.request.value;
          && e.payload.InferRequest? && e.channel == channel && OnlyAs(log, e)
          && e.payload.streamId == k.streamId && e.payload.streaming == k.streaming)
    && (t.stage.Begun? ==> t.request.None? && k.frozen.None? && k.receive.None? && k.requestSeq.None? && !k.localClosed)
    && (t.stage.Registered? || t.stage.Returned? ==> t.request.Some?)
    && (k.requestSeq.Some? ==>
          t.request.Some? && 1 <= k.requestSeq.value <= |log| && At(log, k.requestSeq.value) == t.request.value)
  }

  /** Until it is read, the request is registered and still ahead of the reader. */
  ghost predicate AheadOk(seen: Log, failed: bool, t: Thread, k: CallState) {
    && (k.frozen.Some? ==> t.request == k.frozen && forall e :: e in seen ==> e.uuid != k.frozen.value.uuid)
    && ((t.stage.Registered? || t.stage.Returned?) && !k.localClosed && !failed && k.receive.None? ==> k.frozen.Some?)
    && (k.receive.Some? ==>
          && t.request.Some? && 1 <= k.receive.value.requestSeq <= |seen|
          && At(seen, k.receive.value.requestSeq) == t.request.value)
    && (k.receive.None? || !t.stage.Returned? ==> t.popped == [])
  }

  ghost predicate Active(failed: bool, k: CallState) {
    IsTerminal(k) || (!k.localClosed && !failed)
  }

  /** What the call was given and still holds is what the log has for it. */
  ghost predicate ReceivedOk(seen: Log, failed: bool, t: Thread, k: CallState) {
    k.receive.Some? && IsRequest(seen, k.receive.value.requestSeq) ==>
      var full := Consume(seen, k.receive.value.requestSeq);
      && t.popped + k.queue <= full.items
      && (Active(failed, k) ==> full == Reception(k.receive.value, t.popped + k.queue, k.result, k.completed))
  }

  ghost predicate CloseOk(t: Thread, k: CallState) {
    && (t.closing.Open? <==> !k.closeStarted) && (t.closing.Closed? <==> k.closeDone)
    && (t.closing.Open? || t.closing.Stopped? ==> t.cancels == 0)
    && (t.closing.Cancelling? ==> t.cancels == 1) && t.cancels <= 1
    && (t.closing.Closed? ==> t.cancels == 0 ==> k.closeError.None?)
  }

  /** A call's error is the subscription's, and a call that has its terminal has none. */
  ghost predicate ErrorIs(failure: Option<SubError>, k: CallState) {
    k.error.Some? ==> k.error == failure && !IsTerminal(k)
  }

  ghost predicate ThreadOk(c: Client, i: nat)
    requires c.sub.lastSeenSeq <= |c.log| && i < |c.threads| == |c.sub.calls|
  {
    var t, k := c.threads[i], c.sub.calls[i];
    && RequestOk(c.log, c.channel, t, k) && AheadOk(Seen(c), c.sub.error.Some?, t, k)
    && ReceivedOk(Seen(c), c.sub.error.Some?, t, k) && CloseOk(t, k) && ErrorIs(c.sub.error, k)
  }

  ghost predicate RequestsDistinct(c: Client) {
    forall i, j :: 0 <= i < j < |c.threads| && c.threads[i].request.Some? && c.threads[j].request.Some? ==>
      c.threads[i].request.value.uuid != c.threads[j].request.value.uuid
  }

  ghost predicate Inv(c: Client) {
    && SubInv(c.sub) && |c.threads| == |c.sub.calls| && c.sub.lastSeenSeq <= |c.log|
    && (c.sub.initialFromSeq.None? ==> c.threads == [])
    && DistinctUuids(c.log) && RequestsDistinct(c)
    && forall i :: 0 <= i < |c.threads| ==> ThreadOk(c, i)
  }
}
