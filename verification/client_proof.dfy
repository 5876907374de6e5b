/** The client's invariant is kept by every step. */
module ClientProof {
  import opened Protocol
  import opened Progress
  import opened Delivery
  import opened Consumption
  import Publishing
  import opened SubscriptionView
  import opened Client

  // ---------------------------------------------------------------- the log grows

  lemma DistinctAppend(log: Log, e: Entry)
    requires DistinctUuids(log) && forall f :: f in log ==> f.uuid != e.uuid
    ensures DistinctUuids(log + [e])
  {
    var more := log + [e];
    forall p, q | 0 <= p < q < |more| ensures more[p].uuid != more[q].uuid {
      assert more[p] == log[p];
    }
  }

  lemma RequestOkGrows(log: Log, e: Entry, channel: nat, t: Thread, k: CallState)
    requires RequestOk(log, channel, t, k)
    requires t.request.Some? && t.request.value.uuid == e.uuid ==> e == t.request.value
    ensures RequestOk(log + [e], channel, t, k)
  {
    var more := log + [e];
    assert forall q :: 1 <= q <= |log| ==> At(more, q) == At(log, q);
    assert At(more, |more|) == e;
  }

  lemma GrowKeeps(c: Client, c': Client, e: Entry)
    requires Inv(c) && Grows(c, c', e)
    ensures Inv(c')
  {
    DistinctAppend(c.log, e);
    assert Seen(c') == Seen(c);
    forall i | 0 <= i < |c'.threads| ensures ThreadOk(c', i) {
      assert ThreadOk(c, i);
      RequestOkGrows(c.log, e, c.channel, c.threads[i], c.sub.calls[i]);
    }
  }

  // ---------------------------------------------------------------- one call's step

  /** Only the thread and the call `i` change, and the reader stands still. */
  ghost predicate OnlyThread(c: Client, c': Client, i: nat) {
    && i < |c.threads| == |c.sub.calls| && |c'.threads| == |c'.sub.calls| == |c.threads|
    && c'.log == c.log && c'.channel == c.channel && c'.sub.lastSeenSeq == c.sub.lastSeenSeq
    && c'.sub.error == c.sub.error && c'.sub.initialFromSeq == c.sub.initialFromSeq
    && (forall j :: 0 <= j < |c.threads| && j != i ==>
          c'.threads[j] == c.threads[j] && c'.sub.calls[j] == c.sub.calls[j])
  }

  lemma OneThreadKeeps(c: Client, c': Client, i: nat)
    requires Inv(c) && OnlyThread(c, c', i) && SubInv(c'.sub) && ThreadOk(c', i)
    requires c'.threads[i].request == c.threads[i].request
             || (c.threads[i].request.None? && c'.threads[i].request.Some?
                 && UuidFree(c, c'.threads[i].request.value.uuid))
    ensures Inv(c')
  {
    forall j | 0 <= j < |c'.threads| ensures ThreadOk(c', j) {
      assert ThreadOk(c, j);
    }
    DistinctAfter(c, c', i);
  }

  lemma DistinctAfter(c: Client, c': Client, i: nat)
    requires OnlyThread(c, c', i) && RequestsDistinct(c)
    requires c'.threads[i].request == c.threads[i].request
             || (c.threads[i].request.None? && c'.threads[i].request.Some?
                 && UuidFree(c, c'.threads[i].request.value.uuid))
    ensures RequestsDistinct(c')
  {
    forall p, q | 0 <= p < q < |c'.threads| && c'.threads[p].request.Some? && c'.threads[q].request.Some?
      ensures c'.threads[p].request.value.uuid != c'.threads[q].request.value.uuid
    {
      assert c.threads[p] in c.threads && c.threads[q] in c.threads;
    }
  }

  lemma BeginKeepsInv(c: Client, c': Client, streamId: string, streaming: bool)
    requires Inv(c) && Begins(c, c', streamId, streaming)
    ensures Inv(c')
  {
    BeginKeeps(c.sub, streamId, streaming);
    assert Seen(c') == Seen(c);
    forall i | 0 <= i < |c'.threads| ensures ThreadOk(c', i) {
      if i < |c.threads| {
        assert ThreadOk(c, i);
      }
    }
  }

  lemma PrepareKeeps(c: Client, c': Client, anchor: nat)
    requires Inv(c) && Prepares(c, c', anchor)
    ensures Inv(c')
  {
  }

  /** What an index names is a call that is still waiting to be read. */
  lemma RegisterKeepsInv(c: Client, c': Client, i: nat, e: Entry)
    requires Inv(c) && Registers(c, c', i, e)
    ensures Inv(c')
  {
    assert ThreadOk(c, i) && CallOk(c.sub, i);
    assert e.uuid !in c.sub.byUuid by {
      NotRegistered(c, e.uuid);
    }
    RegisterKeeps(c.sub, i, e);
    assert Seen(c') == Seen(c);
    assert forall f :: f in Seen(c) ==> f in c.log;
    assert OnlyAs(c.log, e) by {
      assert forall q :: 1 <= q <= |c.log| ==> At(c.log, q) in c.log;
    }
    assert ThreadOk(c', i);
    OneThreadKeeps(c, c', i);
  }

  lemma NotRegistered(c: Client, uuid: nat)
    requires Inv(c) && UuidFree(c, uuid)
    ensures uuid !in c.sub.byUuid
  {
    forall u | u in c.sub.byUuid ensures u != uuid {
      var j := c.sub.byUuid[u];
      assert ThreadOk(c, j);
      assert c.threads[j] in c.threads;
    }
  }

  lemma AttemptKeeps(c: Client, c': Client, i: nat)
    requires Inv(c) && Attempts(c, c', i)
    ensures Inv(c')
  {
    if c' != c {
      assert ThreadOk(c, i);
      assert Seen(c') == Seen(c);
      OneThreadKeeps(c, c', i);
    }
  }

  /** A log position is determined by the UUID found there. */
  lemma SamePlace(log: Log, p: nat, q: nat)
    requires DistinctUuids(log) && 1 <= p <= |log| && 1 <= q <= |log| && At(log, p).uuid == At(log, q).uuid
    ensures p == q
  {
    if p < q {
    } else if q < p {
    }
  }

  /** The seq that publication returns is the one at which the reader found the request,
      if it has. */
  lemma PublishedSeqIsReadSeq(c: Client, i: nat, q: nat)
    requires Inv(c) && i < |c.threads| && c.threads[i].request.Some?
    requires 1 <= q <= |c.log| && At(c.log, q).uuid == c.threads[i].request.value.uuid
    ensures At(c.log, q) == c.threads[i].request.value
    ensures c.sub.calls[i].receive.Some? ==> c.sub.calls[i].receive.value.requestSeq == q
  {
    assert ThreadOk(c, i);
    var k := c.sub.calls[i];
    if k.receive.Some? {
      var r := k.receive.value.requestSeq;
      assert At(Seen(c), r) == At(c.log, r);
      SamePlace(c.log, r, q);
    }
  }

  lemma PublicationKeeps(c: Client, c': Client, i: nat, q: nat)
    requires Inv(c) && Publishes(c, c', i, q)
    ensures Inv(c') && c'.sub.error == c.sub.error
  {
    assert ThreadOk(c, i);
    PublishedSeqIsReadSeq(c, i, q);
    PublishedKeeps(c.sub, i, q);
    assert Seen(c') == Seen(c);
    assert ThreadOk(c', i);
    OneThreadKeeps(c, c', i);
  }

  lemma AbandonKeeps(c: Client, c': Client, i: nat)
    requires Inv(c) && Abandons(c, c', i)
    ensures Inv(c')
  {
    assert ThreadOk(c, i);
    PublicationFailedKeeps(c.sub, i);
    assert Seen(c') == Seen(c);
    assert ThreadOk(c', i);
    OneThreadKeeps(c, c', i);
  }

  lemma PopKeepsInv(c: Client, c': Client, i: nat)
    requires Inv(c) && Pops(c, c', i)
    ensures Inv(c')
  {
    assert ThreadOk(c, i);
    PopKeeps(c.sub, i);
    assert Seen(c') == Seen(c);
    assert c'.threads[i].popped + c'.sub.calls[i].queue == c.threads[i].popped + c.sub.calls[i].queue;
    assert CallOk(c.sub, i);
    assert ThreadOk(c', i);
    OneThreadKeeps(c, c', i);
  }

  lemma BeginCloseKeeps(c: Client, c': Client, i: nat)
    requires Inv(c) && BeginsClose(c, c', i)
    ensures Inv(c')
  {
    assert ThreadOk(c, i);
    CloseBeginKeeps(c.sub, i);
    CloseBeginDetaches(c.sub, i);
    assert Seen(c') == Seen(c);
    assert c'.sub.calls[i] == SubscriptionView.Closing(c.sub.calls[i]);
    assert ThreadOk(c', i);
    OneThreadKeeps(c, c', i);
  }

  lemma StartCancelKeeps(c: Client, c': Client, i: nat)
    requires Inv(c) && StartsCancel(c, c', i)
    ensures Inv(c')
  {
    assert ThreadOk(c, i);
    assert Seen(c') == Seen(c);
    OneThreadKeeps(c, c', i);
  }

  lemma EndCloseKeeps(c: Client, c': Client, i: nat, error: Option<Publishing.Verdict>)
    requires Inv(c) && EndsClose(c, c', i, error)
    ensures Inv(c')
  {
    assert ThreadOk(c, i);
    CloseEndKeeps(c.sub, i, error);
    assert Seen(c') == Seen(c);
    assert ThreadOk(c', i);
    OneThreadKeeps(c, c', i);
  }

  lemma FailureKeeps(c: Client, c': Client, error: SubError)
    requires Inv(c) && Fails(c, c', error)
    ensures Inv(c')
  {
    FailAnyKeeps(c.sub, error);
    assert Seen(c') == Seen(c);
    if c.sub.error.None? {
      forall i | 0 <= i < |c'.threads| ensures ThreadOk(c', i) {
        assert ThreadOk(c, i) && CallOk(c.sub, i);
        assert c'.sub.calls[i] == FailCall(c.sub.calls[i], error);
      }
    }
  }

  // ---------------------------------------------------------------- the reader moves on

  /** The entries between the cursor and the next message concern no call. */
  lemma SkippedMatchNothing(c: Client, c': Client, m: Message, r: nat)
    requires Reads(c, c', m) && IsRequest(Seen(c), r) && At(Seen(c), r).channel == c.channel
    ensures IsRequest(c.log[..m.seqNo - 1], r)
    ensures Consume(c.log[..m.seqNo - 1], r) == Consume(Seen(c), r)
  {
    var before := c.log[..m.seqNo - 1];
    assert Seen(c) <= before;
    forall s | |Seen(c)| < s <= |before| ensures !Matches(At(Seen(c), r), r, At(before, s)) {
      assert At(before, s) == At(c.log, s);
    }
    ConsumeSkips(Seen(c), before, r);
  }

  lemma ReadConsumes(c: Client, c': Client, m: Message, r: nat)
    requires Reads(c, c', m) && IsRequest(Seen(c), r) && At(Seen(c), r).channel == c.channel
    ensures IsRequest(c.log[..m.seqNo], r) && At(c.log[..m.seqNo], r) == At(Seen(c), r)
    ensures Consume(c.log[..m.seqNo], r) == Take(Consume(Seen(c), r), At(Seen(c), r), r, m)
  {
    SkippedMatchNothing(c, c', m, r);
    var before := c.log[..m.seqNo - 1];
    assert c.log[..m.seqNo] == before + [m.entry];
    assert At(before, r) == At(Seen(c), r);
    ConsumeStep(before, r, m.entry);
  }

  /** The uuids of what was skipped are not those of the client's requests. */
  lemma StillAhead(c: Client, c': Client, m: Message, e: Entry)
    requires Reads(c, c', m) && e.payload.InferRequest? && e.channel == c.channel && OnlyAs(c.log, e)
    requires forall f :: f in Seen(c) ==> f.uuid != e.uuid
    requires m.entry.uuid != e.uuid
    ensures forall f :: f in c.log[..m.seqNo] ==> f.uuid != e.uuid
  {
    var seen := c.log[..m.seqNo];
    forall f | f in seen ensures f.uuid != e.uuid {
      var s :| 0 <= s < |seen| && seen[s] == f;
      assert At(c.log, s + 1) == f;
      if s < |Seen(c)| {
        assert Seen(c)[s] == f;
      }
    }
  }

  /** The subscription, after a message that fails nothing, has read up to it. */
  ghost predicate ReadTo(c: Client, c': Client, m: Message) {
    && |c.threads| == |c.sub.calls| == |c'.sub.calls| && c'.threads == c.threads
    && c'.log == c.log && c'.channel == c.channel
    && c'.sub.error == c.sub.error && c'.sub.lastSeenSeq == m.seqNo
  }

  /** A call the message is not for. */
  lemma UnaddressedKeeps(c: Client, c': Client, m: Message, i: nat)
    requires Reads(c, c', m) && ReadTo(c, c', m) && i < |c.threads| && c'.sub.calls[i] == c.sub.calls[i]
    requires c.sub.lastSeenSeq <= |c.log| && ThreadOk(c, i)
    requires c.sub.calls[i].frozen.Some? ==> c.sub.calls[i].frozen.value.uuid != m.entry.uuid
    requires c.sub.calls[i].receive.Some? && !IsTerminal(c.sub.calls[i]) && Active(c.sub.error.Some?, c.sub.calls[i]) ==>
               !(IsReply(m.entry) && RefSeq(m.entry) == c.sub.calls[i].receive.value.requestSeq
                 && m.entry.payload.streamId == c.sub.calls[i].streamId)
    ensures ThreadOk(c', i)
  {
    var t, k := c.threads[i], c.sub.calls[i];
    assert Seen(c') == c.log[..m.seqNo];
    if k.frozen.Some? {
      StillAhead(c, c', m, k.frozen.value);
    }
    if k.receive.Some? {
      var r := k.receive.value.requestSeq;
      ReadConsumes(c, c', m, r);
      ConsumeGrows(Seen(c), Seen(c'), r);
      assert At(Seen(c'), r) == At(Seen(c), r);
    }
  }

  lemma FrozenIsIndexed(c: Client, m: Message, j: nat)
    requires 1 <= m.seqNo <= |c.log| && m.entry == At(c.log, m.seqNo)
    requires c.sub.lastSeenSeq <= |c.log| && j < |c.threads| == |c.sub.calls|
    requires ThreadOk(c, j) && CallOk(c.sub, j)
    ensures c.sub.calls[j].frozen.Some? && c.sub.calls[j].frozen.value.uuid == m.entry.uuid ==>
              m.entry.payload.InferRequest? && m.entry.uuid in c.sub.byUuid && c.sub.byUuid[m.entry.uuid] == j
  {
  }

  lemma OthersUnaddressed(c: Client, c': Client, m: Message, i: nat)
    requires Inv(c) && Reads(c, c', m) && ReadTo(c, c', m)
    requires forall j :: 0 <= j < |c.threads| && j != i ==> c'.sub.calls[j] == c.sub.calls[j]
    requires m.entry.payload.InferRequest? && m.entry.uuid in c.sub.byUuid ==> c.sub.byUuid[m.entry.uuid] == i
    requires IsReply(m.entry) && RefSeq(m.entry) in c.sub.bySeq
             && c.sub.calls[c.sub.bySeq[RefSeq(m.entry)]].streamId == m.entry.payload.streamId
             ==> c.sub.bySeq[RefSeq(m.entry)] == i
    ensures forall j :: 0 <= j < |c.threads| && j != i ==> ThreadOk(c', j)
  {
    forall j | 0 <= j < |c.threads| && j != i ensures ThreadOk(c', j) {
      assert ThreadOk(c, j) && CallOk(c.sub, j);
      FrozenIsIndexed(c, m, j);
      UnaddressedKeeps(c, c', m, j);
    }
  }

  /** The reader finds a registered request exactly as it was frozen. */
  lemma FoundIsFrozen(c: Client, m: Message)
    requires Inv(c) && c.sub.lastSeenSeq < m.seqNo <= |c.log| && m.entry == At(c.log, m.seqNo)
    requires m.entry.uuid in c.sub.byUuid
    ensures SameRequest(c.sub.calls[c.sub.byUuid[m.entry.uuid]], m)
  {
    var i := c.sub.byUuid[m.entry.uuid];
    assert ThreadOk(c, i);
    var k := c.sub.calls[i];
    assert m.entry == k.frozen.value;
    if k.requestSeq.Some? {
      SamePlace(c.log, k.requestSeq.value, m.seqNo);
    }
  }

  lemma AdmittedIsOk(c: Client, c': Client, m: Message, i: nat)
    requires Inv(c) && Reads(c, c', m) && ReadTo(c, c', m) && i < |c.threads|
    requires c.sub.calls[i].frozen == Some(m.entry)
    requires c'.sub.calls[i] == c.sub.calls[i].(receive := Some(Admitted(m.seqNo).receive), frozen := None)
    ensures ThreadOk(c', i)
  {
    assert ThreadOk(c, i) && CallOk(c.sub, i);
    var seen := Seen(c');
    assert |seen| == m.seqNo && At(seen, m.seqNo) == m.entry;
    assert Consume(seen, m.seqNo) == Admitted(m.seqNo);
  }

  lemma ReadRequestKeeps(c: Client, c': Client, m: Message)
    requires Inv(c) && Reads(c, c', m) && m.entry.payload.InferRequest? && m.entry.uuid in c.sub.byUuid
    ensures Inv(c') && c'.sub.error == c.sub.error
  {
    var i := c.sub.byUuid[m.entry.uuid];
    FoundIsFrozen(c, m);
    AcceptMessageKeeps(c.sub, m);
    assert CallOk(c.sub, i);
    AdmittedIsOk(c, c', m, i);
    OthersUnaddressed(c, c', m, i);
  }

  lemma ReceivedIsOk(c: Client, c': Client, m: Message, i: nat)
    requires Inv(c) && Reads(c, c', m) && ReadTo(c, c', m) && i < |c.threads| && IsReply(m.entry)
    requires RefSeq(m.entry) in c.sub.bySeq && c.sub.bySeq[RefSeq(m.entry)] == i
    requires c.sub.calls[i].streamId == m.entry.payload.streamId
    requires c.sub.calls[i].receive.Some?
    requires c'.sub.calls[i] == Received(c.sub.calls[i], Deliver(ReceptionOf(c.sub.calls[i]), c.sub.calls[i].streaming, m))
    ensures ThreadOk(c', i)
  {
    assert ThreadOk(c, i) && CallOk(c.sub, i);
    var t, k := c.threads[i], c.sub.calls[i];
    var r := k.receive.value.requestSeq;
    ReadConsumes(c, c', m, r);
    DeliverPrefix(t.popped, ReceptionOf(k), k.streaming, m);
    assert At(Seen(c'), r) == At(Seen(c), r);
  }

  /** Delivery only appends, so what the caller already took does not matter to it. */
  lemma DeliverPrefix(popped: seq<Item>, rc: Reception, streaming: bool, m: Message)
    requires IsReply(m.entry)
    ensures var after := Deliver(rc, streaming, m);
            Deliver(rc.(items := popped + rc.items), streaming, m) == after.(items := popped + after.items)
    ensures Deliver(rc, streaming, m).receive.requestSeq == rc.receive.requestSeq
  {
    assert popped + (rc.items + [Business(m)]) == popped + rc.items + [Business(m)];
    assert popped + (rc.items + [Broken(m)]) == popped + rc.items + [Broken(m)];
  }

  lemma AcceptOutputEffect(s: Sub, i: nat, m: Message)
    requires SubInv(s) && i < |s.calls| && s.calls[i].receive.Some? && IsReply(m.entry) && s.calls[i].frozen.None?
    ensures AcceptOutput(s, i, m).calls
            == s.calls[i := Received(s.calls[i], Deliver(ReceptionOf(s.calls[i]), s.calls[i].streaming, m))]
    ensures AcceptOutput(s, i, m).error == s.error
  {
  }

  lemma ReadOutputKeeps(c: Client, c': Client, m: Message)
    requires Inv(c) && Reads(c, c', m) && IsReply(m.entry) && RefSeq(m.entry) in c.sub.bySeq
    requires c.sub.calls[c.sub.bySeq[RefSeq(m.entry)]].streamId == m.entry.payload.streamId
    ensures Inv(c') && c'.sub.error == c.sub.error
  {
    var i := c.sub.bySeq[RefSeq(m.entry)];
    AcceptMessageKeeps(c.sub, m);
    assert CallOk(c.sub, i);
    AcceptOutputEffect(c.sub, i, m);
    ReceivedIsOk(c, c', m, i);
    OthersUnaddressed(c, c', m, i);
  }

  lemma ReadOtherKeeps(c: Client, c': Client, m: Message)
    requires Inv(c) && Reads(c, c', m)
    requires !(m.entry.payload.InferRequest? && m.entry.uuid in c.sub.byUuid)
    requires !(IsReply(m.entry) && RefSeq(m.entry) in c.sub.bySeq
               && c.sub.calls[c.sub.bySeq[RefSeq(m.entry)]].streamId == m.entry.payload.streamId)
    ensures Inv(c') && c'.sub.error == c.sub.error
  {
    AcceptMessageKeeps(c.sub, m);
    assert c'.sub == c.sub.(lastSeenSeq := m.seqNo);
    OthersUnaddressed(c, c', m, |c.threads|);
  }

  lemma ReadKeeps(c: Client, c': Client, m: Message)
    requires Inv(c) && Reads(c, c', m)
    ensures Inv(c') && c'.sub.error == c.sub.error
  {
    if m.entry.payload.InferRequest? && m.entry.uuid in c.sub.byUuid {
      ReadRequestKeeps(c, c', m);
    } else if IsReply(m.entry) && RefSeq(m.entry) in c.sub.bySeq
              && c.sub.calls[c.sub.bySeq[RefSeq(m.entry)]].streamId == m.entry.payload.streamId {
      ReadOutputKeeps(c, c', m);
    } else {
      ReadOtherKeeps(c, c', m);
    }
  }

  // ---------------------------------------------------------------- runs

  lemma StepKeepsInv(c: Client, a: Action, c': Client)
    requires Inv(c) && Next(c, a, c')
    ensures Inv(c')
  {
    match a
    case Grow(e) => GrowKeeps(c, c', e);
    case Prepare(anchor) => PrepareKeeps(c, c', anchor);
    case Start(streamId, streaming) => BeginKeepsInv(c, c', streamId, streaming);
    case Registration(i, e) => RegisterKeepsInv(c, c', i, e);
    case Attempt(i) => AttemptKeeps(c, c', i);
    case Publication(i, q) => PublicationKeeps(c, c', i, q);
    case Abandon(i) => AbandonKeeps(c, c', i);
    case Popped(i) => PopKeepsInv(c, c', i);
    case ClosesFirst(i) => BeginCloseKeeps(c, c', i);
    case StartCancel(i) => StartCancelKeeps(c, c', i);
    case EndClose(i, found) => EndCloseKeeps(c, c', i, found);
    case Read(m) => ReadKeeps(c, c', m);
    case Failure(error) => FailureKeeps(c, c', error);
  }

  lemma {:induction false} RunKeepsInv(states: seq<Client>, actions: seq<Action>, k: nat)
    requires Run(states, actions) && k < |states|
    ensures Inv(states[k])
  {
    if k > 0 {
      RunKeepsInv(states, actions, k - 1);
      assert StepAt(states, actions, k - 1);
      StepKeepsInv(states[k - 1], actions[k - 1], states[k]);
    }
  }
}
