/** A client's subscription as a value: its calls, its two indexes and its critical
    sections. The classes in `Subscribing` are proved against these functions. */
module SubscriptionView {
  import opened Protocol
  import opened Progress
  import opened Delivery
  import opened Consumption
  import opened Publishing

  datatype SubError = RpcLost | ProtocolBroken

  /** One call. `closeError` is what its close found out, which every closer reports. */
  datatype CallState = CallState(
    streamId: string, streaming: bool, frozen: Option<Entry>, requestSeq: Option<nat>,
    receive: Option<Receive>, queue: seq<Item>, error: Option<SubError>, localClosed: bool,
    result: Option<Message>, completed: Option<Message>,
    closeStarted: bool, closeDone: bool, closeError: Option<Verdict>)

  /** `byUuid` and `bySeq` lead to positions in `calls`. */
  datatype Sub = Sub(
    error: Option<SubError>, initialFromSeq: Option<nat>, lastSeenSeq: nat,
    calls: seq<CallState>, byUuid: map<nat, nat>, bySeq: map<nat, nat>)

  const NEW_SUB := Sub(None, None, 0, [], map[], map[])

  function NewCall(streamId: string, streaming: bool): CallState {
    CallState(streamId, streaming, None, None, None, [], None, false, None, None, false, false, None)
  }

  predicate IsTerminal(c: CallState) {
    c.receive.Some? && c.receive.value.terminal
  }

  function WithCall(s: Sub, i: nat, c: CallState): Sub
    requires i < |s.calls|
  {
    s.(calls := s.calls[i := c])
  }

  // ---------------------------------------------------------------- registering and publishing

  function Begin(s: Sub, streamId: string, streaming: bool): Sub {
    s.(calls := s.calls + [NewCall(streamId, streaming)])
  }

  function Register(s: Sub, i: nat, frozen: Entry): Sub
    requires i < |s.calls|
  {
    WithCall(s, i, s.calls[i].(frozen := Some(frozen))).(byUuid := s.byUuid[frozen.uuid := i])
  }

  /** `_detach_locked`: `receive` is kept to check a publication result that comes later. */
  function Detach(s: Sub, i: nat): Sub
    requires i < |s.calls|
  {
    var c := s.calls[i];
    WithCall(s, i, c.(frozen := None)).(
      byUuid := if c.frozen.Some? then s.byUuid - {c.frozen.value.uuid} else s.byUuid,
      bySeq := if c.receive.Some? then s.bySeq - {c.receive.value.requestSeq} else s.bySeq)
  }

  function StopCall(s: Sub, i: nat): Sub
    requires i < |s.calls|
  {
    var d := Detach(s, i);
    WithCall(d, i, d.calls[i].(localClosed := true))
  }

  function Invalidate(s: Sub, i: nat, error: SubError): Sub
    requires i < |s.calls|
  {
    var d := Detach(s, i);
    WithCall(d, i, d.calls[i].(queue := [], result := None, completed := None, error := Some(error),
                               localClosed := true))
  }

  function PublicationFailed(s: Sub, i: nat): Sub
    requires i < |s.calls|
  {
    var d := Detach(s, i);
    WithCall(d, i, d.calls[i].(localClosed := true, queue := [], result := None, completed := None,
                               receive := None, error := None))
  }

  function FailCall(c: CallState, error: SubError): CallState {
    c.(frozen := None,
       error := if !c.localClosed && !IsTerminal(c) && c.error.None? then Some(error) else c.error)
  }

  function FailCalls(calls: seq<CallState>, error: SubError): seq<CallState> {
    seq(|calls|, i requires 0 <= i < |calls| => FailCall(calls[i], error))
  }

  /** `_fail_locked`: the first error is final. */
  function Fail(s: Sub, error: SubError): Sub {
    if s.error.Some? then s
    else s.(error := Some(error), byUuid := map[], bySeq := map[],
            calls := FailCalls(s.calls, error))
  }

  function Published(s: Sub, i: nat, q: nat): Sub
    requires i < |s.calls|
  {
    var c := s.calls[i];
    var told := WithCall(s, i, c.(requestSeq := Some(q)));
    if c.receive.Some? && c.receive.value.requestSeq != q
    then Fail(Invalidate(told, i, ProtocolBroken), ProtocolBroken)
    else told
  }

  // ---------------------------------------------------------------- the reader

  /** Every registered call has its frozen request, every admitted one its receive state. */
  predicate Shaped(s: Sub) {
    && (forall u :: u in s.byUuid ==> s.byUuid[u] < |s.calls| && s.calls[s.byUuid[u]].frozen.Some?)
    && (forall r :: r in s.bySeq ==> s.bySeq[r] < |s.calls| && s.calls[s.bySeq[r]].receive.Some?)
  }

  /** The subscribed request is the one this client froze. */
  predicate SameRequest(c: CallState, m: Message) {
    && c.frozen.Some? && m.seqNo > 0 && m.entry == c.frozen.value
    && (c.requestSeq.None? || c.requestSeq.value == m.seqNo)
  }

  function Admit(s: Sub, i: nat, m: Message): Sub
    requires i < |s.calls|
  {
    WithCall(s, i, s.calls[i].(receive := Some(Admitted(m.seqNo).receive), frozen := None)).(
      bySeq := s.bySeq[m.seqNo := i], byUuid := s.byUuid - {m.entry.uuid})
  }

  function ReceptionOf(c: CallState): Reception
    requires c.receive.Some?
  {
    Reception(c.receive.value, c.queue, c.result, c.completed)
  }

  function Received(c: CallState, rc: Reception): CallState {
    c.(receive := Some(rc.receive), queue := rc.items, result := rc.result, completed := rc.completed)
  }

  function AcceptOutput(s: Sub, i: nat, m: Message): Sub
    requires i < |s.calls| && s.calls[i].receive.Some? && IsReply(m.entry)
  {
    var c := s.calls[i];
    var rc := Deliver(ReceptionOf(c), c.streaming, m);
    var taken := WithCall(s, i, Received(c, rc));
    if rc.receive.terminal then Detach(taken, i) else taken
  }

  /** The second critical section of `_accept`, on a parsed message beyond the cursor; the
      flag tells the reader whether to go on. */
  function AcceptMessage(s: Sub, m: Message): (Sub, bool)
    requires Shaped(s)
  {
    if s.error.Some? then (s, false)
    else if m.entry.payload.InferRequest? then
      if m.entry.uuid !in s.byUuid then (s.(lastSeenSeq := m.seqNo), true)
      else
        var i := s.byUuid[m.entry.uuid];
        if SameRequest(s.calls[i], m) then (Admit(s, i, m).(lastSeenSeq := m.seqNo), true)
        else (Fail(Invalidate(s, i, ProtocolBroken), ProtocolBroken), false)
    else if IsReply(m.entry) && RefSeq(m.entry) in s.bySeq
            && s.calls[s.bySeq[RefSeq(m.entry)]].streamId == m.entry.payload.streamId then
      (AcceptOutput(s, s.bySeq[RefSeq(m.entry)], m).(lastSeenSeq := m.seqNo), true)
    else (s.(lastSeenSeq := m.seqNo), true)
  }

  // ---------------------------------------------------------------- the caller

  datatype Look = Given(item: Item) | Raises(error: SubError) | Finished | Waits

  /** One look of `next_message` at its call. */
  function NextOf(c: CallState): Look {
    if c.queue != [] then Given(c.queue[0])
    else if c.error.Some? then Raises(c.error.value)
    else if c.localClosed then Finished
    else Waits
  }

  function Pop(s: Sub, i: nat): Sub
    requires i < |s.calls|
  {
    if s.calls[i].queue == [] then s else WithCall(s, i, s.calls[i].(queue := s.calls[i].queue[1..]))
  }

  /** The first critical section of `_close_call`, for the closer that finds the call open. */
  function CloseBegin(s: Sub, i: nat): Sub
    requires i < |s.calls|
  {
    StopCall(WithCall(s, i, s.calls[i].(closeStarted := true)), i)
  }

  /** Whether that closer publishes a cancel. */
  predicate Cancels(s: Sub, i: nat)
    requires i < |s.calls|
  {
    s.error.None? && s.calls[i].requestSeq.Some? && !IsTerminal(s.calls[i])
  }

  function CloseEnd(s: Sub, i: nat, error: Option<Verdict>): Sub
    requires i < |s.calls|
  {
    WithCall(s, i, s.calls[i].(closeError := error, closeDone := true))
  }

  // ---------------------------------------------------------------- what always holds

  /** After this item the call gets nothing more. */
  predicate IsFinal(streaming: bool, item: Item) {
    item.Broken? ||
    match item.message.entry.payload
    case InferResult(_, _, _, body) => body.Some?
    case InferAppend(_, _, _, _) => false
    case _ => true
  }

  /** The indexes lead to the calls they name, and only to calls that still need them. */
  ghost predicate Indexed(s: Sub) {
    && (forall u :: u in s.byUuid ==>
          && s.byUuid[u] < |s.calls|
          && s.calls[s.byUuid[u]].frozen.Some? && s.calls[s.byUuid[u]].frozen.value.uuid == u)
    && (forall r :: r in s.bySeq ==>
          && s.bySeq[r] < |s.calls|
          && s.calls[s.bySeq[r]].receive.Some? && s.calls[s.bySeq[r]].receive.value.requestSeq == r
          && !IsTerminal(s.calls[s.bySeq[r]]) && !s.calls[s.bySeq[r]].localClosed)
  }

  /** A call is in each index exactly as its own fields say. */
  ghost predicate Located(s: Sub, i: nat)
    requires i < |s.calls|
  {
    var c := s.calls[i];
    && (c.frozen.Some? ==>
          && c.receive.None? && !c.localClosed && s.error.None?
          && c.frozen.value.uuid in s.byUuid && s.byUuid[c.frozen.value.uuid] == i)
    && (c.receive.Some? ==> c.receive.value.requestSeq <= s.lastSeenSeq)
    && (c.receive.Some? && !IsTerminal(c) && !c.localClosed && s.error.None? ==>
          && c.receive.value.requestSeq in s.bySeq && s.bySeq[c.receive.value.requestSeq] == i)
  }

  /** The queue ends with the terminal item, if it holds it. */
  ghost predicate QueueOk(c: CallState) {
    && (forall k :: 0 <= k < |c.queue| && IsFinal(c.streaming, c.queue[k]) ==> k == |c.queue| - 1 && IsTerminal(c))
    && (c.receive.None? ==> c.queue == [] && c.result.None? && c.completed.None?)
    && (c.result.Some? ==> c.receive.Some? && c.receive.value.headSeen)
    && (c.completed.Some? ==> IsTerminal(c))
  }

  /** A seq that publication returned and the seq at which the request was read are one,
      or the subscription has failed and what the call had received is discarded. */
  ghost predicate IdentityOk(s: Sub, c: CallState) {
    c.requestSeq.Some? && c.receive.Some? ==>
      || c.requestSeq.value == c.receive.value.requestSeq
      || (s.error.Some? && c.queue == [] && c.result.None? && c.localClosed && c.error.Some?)
  }

  ghost predicate ErrorOk(s: Sub, c: CallState) {
    && (c.error.Some? ==> s.error.Some?)
    && (s.error.Some? ==> c.localClosed || IsTerminal(c) || c.error.Some?)
    && (c.closeDone ==> c.closeStarted) && (c.closeStarted ==> c.localClosed)
  }

  ghost predicate CallOk(s: Sub, i: nat)
    requires i < |s.calls|
  {
    Located(s, i) && QueueOk(s.calls[i]) && IdentityOk(s, s.calls[i]) && ErrorOk(s, s.calls[i])
  }

  ghost predicate SeqsDistinct(s: Sub) {
    forall i, j :: 0 <= i < j < |s.calls| && s.calls[i].receive.Some? && s.calls[j].receive.Some? ==>
      s.calls[i].receive.value.requestSeq != s.calls[j].receive.value.requestSeq
  }

  ghost predicate SubInv(s: Sub) {
    && Indexed(s) && SeqsDistinct(s)
    && (s.error.Some? ==> s.byUuid == map[] && s.bySeq == map[])
    && forall i :: 0 <= i < |s.calls| ==> CallOk(s, i)
  }

  lemma IndexedIsShaped(s: Sub)
    requires Indexed(s)
    ensures Shaped(s)
  {
  }

  // ---------------------------------------------------------------- the critical sections keep it

  /** Where `j` is found, and what it holds, is as before. */
  ghost predicate Untouched(s: Sub, d: Sub, j: nat) {
    && j < |s.calls| && j < |d.calls| && d.calls[j] == s.calls[j]
    && d.error == s.error && s.lastSeenSeq <= d.lastSeenSeq
    && (forall u :: u in s.byUuid && s.byUuid[u] == j ==> u in d.byUuid && d.byUuid[u] == j)
    && (forall r :: r in s.bySeq && s.bySeq[r] == j ==> r in d.bySeq && d.bySeq[r] == j)
  }

  lemma UntouchedKeeps(s: Sub, d: Sub, j: nat)
    requires Untouched(s, d, j) && CallOk(s, j)
    ensures CallOk(d, j)
  {
  }

  lemma BeginKeeps(s: Sub, streamId: string, streaming: bool)
    requires SubInv(s) && s.error.None?
    ensures SubInv(Begin(s, streamId, streaming))
  {
    var next := Begin(s, streamId, streaming);
    forall i | 0 <= i < |next.calls| ensures CallOk(next, i) {
      if i < |s.calls| {
        assert CallOk(s, i);
        UntouchedKeeps(s, next, i);
      }
    }
  }

  lemma RegisterKeeps(s: Sub, i: nat, frozen: Entry)
    requires SubInv(s) && s.error.None? && i < |s.calls| && frozen.uuid !in s.byUuid
    requires s.calls[i].frozen.None? && s.calls[i].receive.None? && !s.calls[i].localClosed
    ensures SubInv(Register(s, i, frozen))
  {
    var next := Register(s, i, frozen);
    assert CallOk(s, i);
    assert forall u :: u in s.byUuid ==> s.byUuid[u] != i;
    forall j | 0 <= j < |next.calls| ensures CallOk(next, j) {
      if j != i {
        assert CallOk(s, j);
        UntouchedKeeps(s, next, j);
      }
    }
  }

  lemma SeqLeadsToCall(s: Sub, i: nat, r: nat)
    requires Indexed(s) && SeqsDistinct(s) && i < |s.calls| && r in s.bySeq && s.bySeq[r] != i
    ensures s.calls[i].receive.Some? ==> s.calls[i].receive.value.requestSeq != r
  {
    var j := s.bySeq[r];
    assert s.calls[j].receive.Some? && s.calls[j].receive.value.requestSeq == r;
  }

  /** A call leaves both indexes, and nothing else moves. */
  lemma DetachEffect(s: Sub, i: nat)
    requires Indexed(s) && SeqsDistinct(s) && i < |s.calls| && CallOk(s, i)
    ensures var d := Detach(s, i);
            && d.calls == s.calls[i := s.calls[i].(frozen := None)]
            && (forall u :: u in d.byUuid <==> u in s.byUuid && s.byUuid[u] != i)
            && (forall u :: u in d.byUuid ==> d.byUuid[u] == s.byUuid[u])
            && (forall r :: r in d.bySeq <==> r in s.bySeq && s.bySeq[r] != i)
            && (forall r :: r in d.bySeq ==> d.bySeq[r] == s.bySeq[r])
  {
    var c := s.calls[i];
    forall r | r in s.bySeq ensures s.bySeq[r] == i <==> c.receive.Some? && c.receive.value.requestSeq == r {
      if s.bySeq[r] != i {
        SeqLeadsToCall(s, i, r);
      }
    }
  }

  /** What a detached call may be put into: a state that needs no index. */
  ghost predicate Settled(s: Sub, i: nat, c: CallState)
    requires i < |s.calls|
  {
    && c.frozen.None? && (c.localClosed || IsTerminal(c))
    && (c.receive.Some? ==> s.calls[i].receive.Some?
                            && c.receive.value.requestSeq == s.calls[i].receive.value.requestSeq)
    && QueueOk(c) && IdentityOk(s, c) && ErrorOk(s, c)
  }

  lemma DetachedKeeps(s: Sub, i: nat, c: CallState)
    requires SubInv(s) && i < |s.calls| && Settled(s, i, c)
    ensures SubInv(WithCall(Detach(s, i), i, c))
  {
    assert CallOk(s, i);
    DetachEffect(s, i);
    var next := WithCall(Detach(s, i), i, c);
    assert forall j :: 0 <= j < |next.calls| ==> next.calls[j] == if j == i then c else s.calls[j];
    assert SeqsDistinct(next);
    forall j | 0 <= j < |next.calls| ensures CallOk(next, j) {
      if j != i {
        assert CallOk(s, j);
        UntouchedKeeps(s, next, j);
      }
    }
  }

  lemma StopKeeps(s: Sub, i: nat)
    requires SubInv(s) && i < |s.calls|
    ensures SubInv(StopCall(s, i))
  {
    assert CallOk(s, i);
    var c := s.calls[i].(frozen := None, localClosed := true);
    DetachedKeeps(s, i, c);
    assert StopCall(s, i) == WithCall(Detach(s, i), i, c);
  }

  lemma PublicationFailedKeeps(s: Sub, i: nat)
    requires SubInv(s) && i < |s.calls|
    ensures SubInv(PublicationFailed(s, i))
  {
    assert CallOk(s, i);
    var c := s.calls[i].(frozen := None, localClosed := true, queue := [], result := None, completed := None,
                         receive := None, error := None);
    DetachedKeeps(s, i, c);
    assert PublicationFailed(s, i) == WithCall(Detach(s, i), i, c);
  }

  /** Failing the subscription. What `_invalidate_locked` leaves behind is in order only
      once `_fail_locked` has followed, so the call's own state is not assumed to be. */
  ghost predicate FailableCall(s: Sub, c: CallState) {
    && QueueOk(c)
    && (c.receive.Some? ==> c.receive.value.requestSeq <= s.lastSeenSeq)
    && (c.requestSeq.Some? && c.receive.Some? ==>
          || c.requestSeq.value == c.receive.value.requestSeq
          || (c.queue == [] && c.result.None? && c.localClosed && c.error.Some?))
    && (c.closeDone ==> c.closeStarted) && (c.closeStarted ==> c.localClosed)
  }

  lemma FailKeeps(s: Sub, error: SubError)
    requires s.error.None? && SeqsDistinct(s)
    requires forall i :: 0 <= i < |s.calls| ==> FailableCall(s, s.calls[i])
    ensures SubInv(Fail(s, error))
  {
    var next := Fail(s, error);
    assert forall i :: 0 <= i < |s.calls| ==> next.calls[i] == FailCall(s.calls[i], error);
    forall i | 0 <= i < |next.calls| ensures CallOk(next, i) {
      assert FailableCall(s, s.calls[i]);
    }
  }

  lemma InvIsFailable(s: Sub)
    requires SubInv(s) && s.error.None?
    ensures forall i :: 0 <= i < |s.calls| ==> FailableCall(s, s.calls[i])
  {
    forall i | 0 <= i < |s.calls| ensures FailableCall(s, s.calls[i]) {
      assert CallOk(s, i);
    }
  }

  lemma FailAnyKeeps(s: Sub, error: SubError)
    requires SubInv(s)
    ensures SubInv(Fail(s, error))
  {
    if s.error.None? {
      InvIsFailable(s);
      FailKeeps(s, error);
    }
  }

  /** The state after `_invalidate_locked` on a call whose two seqs differ, or whose
      request was altered. */
  lemma InvalidateKeeps(s: Sub, i: nat, q: Option<nat>)
    requires SubInv(s) && i < |s.calls|
    ensures var told := WithCall(s, i, s.calls[i].(requestSeq := q));
            SubInv(Fail(Invalidate(told, i, ProtocolBroken), ProtocolBroken))
  {
    assert CallOk(s, i);
    var told := WithCall(s, i, s.calls[i].(requestSeq := q));
    var broken := Invalidate(told, i, ProtocolBroken);
    var c := s.calls[i].(frozen := None, requestSeq := q, queue := [], result := None, completed := None,
                         error := Some(ProtocolBroken), localClosed := true);
    assert broken == WithCall(Detach(s, i), i, c);
    if s.error.Some? {
      DetachedKeeps(s, i, c);
    } else {
      InvIsFailable(s);
      assert forall j :: 0 <= j < |broken.calls| ==> broken.calls[j] == if j == i then c else s.calls[j];
      assert FailableCall(broken, c);
      assert forall j :: 0 <= j < |s.calls| ==> FailableCall(s, s.calls[j]);
      FailKeeps(broken, ProtocolBroken);
    }
  }

  /** A call's own state changes, the indexes do not. */
  lemma ChangedKeeps(s: Sub, i: nat, c: CallState)
    requires SubInv(s) && i < |s.calls| && c.frozen == s.calls[i].frozen
    requires c.receive.Some? <==> s.calls[i].receive.Some?
    requires c.receive.Some? ==> c.receive.value.requestSeq == s.calls[i].receive.value.requestSeq
                                 && c.receive.value.terminal == s.calls[i].receive.value.terminal
    requires c.localClosed == s.calls[i].localClosed
    requires QueueOk(c) && IdentityOk(s, c) && ErrorOk(s, c)
    ensures SubInv(WithCall(s, i, c))
  {
    var next := WithCall(s, i, c);
    assert CallOk(s, i);
    forall j | 0 <= j < |next.calls| ensures CallOk(next, j) {
      assert CallOk(s, j);
      if j != i {
        UntouchedKeeps(s, next, j);
      }
    }
  }

  lemma PublishedKeeps(s: Sub, i: nat, q: nat)
    requires SubInv(s) && i < |s.calls|
    ensures SubInv(Published(s, i, q))
  {
    assert CallOk(s, i);
    var c := s.calls[i];
    if c.receive.Some? && c.receive.value.requestSeq != q {
      InvalidateKeeps(s, i, Some(q));
    } else {
      ChangedKeeps(s, i, c.(requestSeq := Some(q)));
    }
  }

  lemma PopKeeps(s: Sub, i: nat)
    requires SubInv(s) && i < |s.calls|
    ensures SubInv(Pop(s, i))
  {
    assert CallOk(s, i);
    if s.calls[i].queue != [] {
      var c := s.calls[i].(queue := s.calls[i].queue[1..]);
      assert forall k :: 0 <= k < |c.queue| ==> c.queue[k] == s.calls[i].queue[k + 1];
      ChangedKeeps(s, i, c);
    }
  }

  function Closing(c: CallState): CallState {
    c.(closeStarted := true, frozen := None, localClosed := true)
  }

  lemma CloseBeginDetaches(s: Sub, i: nat)
    requires i < |s.calls|
    ensures CloseBegin(s, i) == WithCall(Detach(s, i), i, Closing(s.calls[i]))
  {
    var begun := WithCall(s, i, s.calls[i].(closeStarted := true));
    assert Detach(begun, i).byUuid == Detach(s, i).byUuid && Detach(begun, i).bySeq == Detach(s, i).bySeq;
  }

  lemma CloseBeginKeeps(s: Sub, i: nat)
    requires SubInv(s) && i < |s.calls|
    ensures SubInv(CloseBegin(s, i))
  {
    assert CallOk(s, i);
    DetachedKeeps(s, i, Closing(s.calls[i]));
    CloseBeginDetaches(s, i);
  }

  lemma CloseEndKeeps(s: Sub, i: nat, error: Option<Verdict>)
    requires SubInv(s) && i < |s.calls| && s.calls[i].closeStarted
    ensures SubInv(CloseEnd(s, i, error))
  {
    assert CallOk(s, i);
    ChangedKeeps(s, i, s.calls[i].(closeError := error, closeDone := true));
  }

  lemma SeenKeeps(s: Sub, q: nat)
    requires SubInv(s) && s.lastSeenSeq <= q
    ensures SubInv(s.(lastSeenSeq := q))
  {
    var next := s.(lastSeenSeq := q);
    forall i | 0 <= i < |next.calls| ensures CallOk(next, i) {
      assert CallOk(s, i);
      UntouchedKeeps(s, next, i);
    }
  }

  lemma AdmitKeeps(s: Sub, i: nat, m: Message)
    requires SubInv(s) && s.error.None? && i < |s.calls| && s.lastSeenSeq < m.seqNo
    requires s.calls[i].frozen == Some(m.entry) && SameRequest(s.calls[i], m)
    ensures SubInv(Admit(s, i, m).(lastSeenSeq := m.seqNo))
  {
    var next := Admit(s, i, m).(lastSeenSeq := m.seqNo);
    var c := s.calls[i].(receive := Some(Admitted(m.seqNo).receive), frozen := None);
    assert CallOk(s, i);
    forall r | r in s.bySeq ensures r <= s.lastSeenSeq {
      assert CallOk(s, s.bySeq[r]);
    }
    assert forall j :: 0 <= j < |next.calls| ==> next.calls[j] == if j == i then c else s.calls[j];
    forall j | 0 <= j < |next.calls| ensures CallOk(next, j) {
      assert CallOk(s, j);
      if j != i {
        UntouchedKeeps(s, next, j);
      }
    }
    forall j | 0 <= j < |s.calls| ensures Located(s, j) {
      assert CallOk(s, j);
    }
    AdmitIndexes(s, i, m);
  }

  lemma AdmitIndexes(s: Sub, i: nat, m: Message)
    requires Indexed(s) && SeqsDistinct(s) && i < |s.calls| && s.lastSeenSeq < m.seqNo
    requires s.calls[i].frozen == Some(m.entry) && s.calls[i].receive.None?
    requires forall j :: 0 <= j < |s.calls| ==> Located(s, j)
    ensures Indexed(Admit(s, i, m)) && SeqsDistinct(Admit(s, i, m))
  {
    var next := Admit(s, i, m);
    assert Located(s, i);
    forall j, k | 0 <= j < k < |next.calls| && next.calls[j].receive.Some? && next.calls[k].receive.Some?
      ensures next.calls[j].receive.value.requestSeq != next.calls[k].receive.value.requestSeq
    {
      assert Located(s, j) && Located(s, k);
    }
  }

  lemma DeliverKeepsQueue(c: CallState, m: Message)
    requires QueueOk(c) && c.receive.Some? && !IsTerminal(c) && IsReply(m.entry)
    ensures QueueOk(Received(c, Deliver(ReceptionOf(c), c.streaming, m)))
    ensures Received(c, Deliver(ReceptionOf(c), c.streaming, m)).receive.value.requestSeq
            == c.receive.value.requestSeq
  {
    var rc := Deliver(ReceptionOf(c), c.streaming, m);
    assert forall k :: 0 <= k < |c.queue| ==> !IsFinal(c.streaming, c.queue[k]);
    assert rc.items == c.queue || rc.items == c.queue + [Business(m)] || rc.items == c.queue + [Broken(m)];
  }

  lemma AcceptOutputKeeps(s: Sub, i: nat, m: Message)
    requires SubInv(s) && s.error.None? && IsReply(m.entry)
    requires RefSeq(m.entry) in s.bySeq && s.bySeq[RefSeq(m.entry)] == i && i < |s.calls|
    ensures s.calls[i].receive.Some? && SubInv(AcceptOutput(s, i, m))
  {
    assert CallOk(s, i);
    var c := s.calls[i];
    DeliverKeepsQueue(c, m);
    var taken := Received(c, Deliver(ReceptionOf(c), c.streaming, m));
    if IsTerminal(taken) {
      DetachedKeeps(s, i, taken);
      assert AcceptOutput(s, i, m) == WithCall(Detach(s, i), i, taken);
    } else {
      ChangedKeeps(s, i, taken);
    }
  }

  lemma AcceptMessageKeeps(s: Sub, m: Message)
    requires SubInv(s) && s.lastSeenSeq < m.seqNo
    ensures Shaped(s) && SubInv(AcceptMessage(s, m).0)
  {
    IndexedIsShaped(s);
    if s.error.None? {
      if m.entry.payload.InferRequest? && m.entry.uuid in s.byUuid {
        var i := s.byUuid[m.entry.uuid];
        if SameRequest(s.calls[i], m) {
          AdmitKeeps(s, i, m);
        } else {
          assert s == WithCall(s, i, s.calls[i].(requestSeq := s.calls[i].requestSeq));
          InvalidateKeeps(s, i, s.calls[i].requestSeq);
        }
      } else if !m.entry.payload.InferRequest? && IsReply(m.entry) && RefSeq(m.entry) in s.bySeq
                && s.calls[s.bySeq[RefSeq(m.entry)]].streamId == m.entry.payload.streamId {
        var i := s.bySeq[RefSeq(m.entry)];
        AcceptOutputKeeps(s, i, m);
        SeenKeeps(AcceptOutput(s, i, m), m.seqNo);
      } else {
        SeenKeeps(s, m.seqNo);
      }
    }
  }

  // ---------------------------------------------------------------- a stream of messages

  /** One message of the stream: a replay is skipped, and reading stops at a failure. */
  function ReadOne(s: Sub, m: Message): (Sub, bool)
    requires Shaped(s)
  {
    if s.error.Some? then (s, false)
    else if m.seqNo <= s.lastSeenSeq then (s, true)
    else AcceptMessage(s, m)
  }

  ghost function ReadAll(s: Sub, messages: seq<Message>): (r: (Sub, bool))
    requires SubInv(s)
    ensures SubInv(r.0)
    decreases |messages|
  {
    if messages == [] then (s, true)
    else
      var (t, goOn) := ReadAll(s, messages[..|messages| - 1]);
      if !goOn then (t, false)
      else
        var m := messages[|messages| - 1];
        IndexedIsShaped(t);
        ReadOneKeeps(t, m);
        ReadOne(t, m)
  }

  lemma ReadOneKeeps(s: Sub, m: Message)
    requires SubInv(s)
    ensures Shaped(s) && SubInv(ReadOne(s, m).0)
  {
    IndexedIsShaped(s);
    if s.error.None? && s.lastSeenSeq < m.seqNo {
      AcceptMessageKeeps(s, m);
    }
  }
}
