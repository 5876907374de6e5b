/** What holds over whole runs of a client. */
module ClientTheorems {
  import opened Protocol
  import opened Progress
  import opened Delivery
  import opened Consumption
  import Publishing
  import opened SubscriptionView
  import opened Client
  import opened ClientProof

  // ---------------------------------------------------------------- request identity

  /** Whichever of publication and the reader is first, they find the same seq, and it is
      the place of the request as frozen. */
  lemma RequestIdentity(states: seq<Client>, actions: seq<Action>, n: nat, i: nat)
    requires Run(states, actions) && n < |states| && i < |states[n].threads|
    ensures i < |states[n].sub.calls|
    ensures var k, t := states[n].sub.calls[i], states[n].threads[i];
            && (k.requestSeq.Some? && k.receive.Some? ==> k.requestSeq.value == k.receive.value.requestSeq)
            && (k.receive.Some? ==>
                  var r := k.receive.value.requestSeq;
                  IsRequest(states[n].log, r) && t.request == Some(At(states[n].log, r)))
  {
    RunKeepsInv(states, actions, n);
    var c := states[n];
    assert ThreadOk(c, i);
    var k := c.sub.calls[i];
    if k.receive.Some? {
      assert At(c.log, k.receive.value.requestSeq) == At(Seen(c), k.receive.value.requestSeq);
      if k.requestSeq.Some? {
        SamePlace(c.log, k.requestSeq.value, k.receive.value.requestSeq);
      }
    }
  }

  /** A call is for the request it was admitted to: same stream id, same kind, its channel. */
  lemma CallMatchesItsRequest(states: seq<Client>, actions: seq<Action>, n: nat, i: nat)
    requires Run(states, actions) && n < |states| && i < |states[n].threads| == |states[n].sub.calls|
    requires states[n].sub.calls[i].receive.Some?
    ensures var k, r := states[n].sub.calls[i], states[n].sub.calls[i].receive.value.requestSeq;
            && IsRequest(states[n].log, r)
            && At(states[n].log, r).payload.streaming == k.streaming
            && At(states[n].log, r).payload.streamId == k.streamId
            && At(states[n].log, r).channel == states[n].channel
  {
    RequestIdentity(states, actions, n, i);
    RunKeepsInv(states, actions, n);
    assert ThreadOk(states[n], i);
  }

  /** Neither reading nor publication ever fails the subscription over a request. */
  lemma NoIdentityFailure(states: seq<Client>, actions: seq<Action>, n: nat)
    requires Run(states, actions) && n < |actions| && (actions[n].Read? || actions[n].Publication?)
    ensures states[n + 1].sub.error == states[n].sub.error
  {
    RunKeepsInv(states, actions, n);
    assert StepAt(states, actions, n);
    match actions[n]
    case Read(m) => ReadKeeps(states[n], states[n + 1], m);
    case Publication(i, q) => PublicationKeeps(states[n], states[n + 1], i, q);
  }

  /** The reader does not pass a registered call's request without admitting it. */
  lemma RequestIsNotSkipped(states: seq<Client>, actions: seq<Action>, n: nat, i: nat, q: nat)
    requires Run(states, actions) && n < |states| && i < |states[n].threads| == |states[n].sub.calls|
    requires states[n].threads[i].stage.Registered? || states[n].threads[i].stage.Returned?
    requires states[n].sub.error.None? && !states[n].sub.calls[i].localClosed
    requires 1 <= q <= |states[n].log| && q <= states[n].sub.lastSeenSeq
    requires states[n].threads[i].request.Some?
    requires At(states[n].log, q).uuid == states[n].threads[i].request.value.uuid
    ensures states[n].sub.calls[i].receive.Some? && states[n].sub.calls[i].receive.value.requestSeq == q
  {
    RunKeepsInv(states, actions, n);
    var c := states[n];
    assert ThreadOk(c, i);
    var k := c.sub.calls[i];
    assert At(Seen(c), q) == At(c.log, q) && At(Seen(c), q) in Seen(c);
    if k.receive.Some? {
      assert At(c.log, k.receive.value.requestSeq) == At(Seen(c), k.receive.value.requestSeq);
      SamePlace(c.log, q, k.receive.value.requestSeq);
    }
  }

  // ---------------------------------------------------------------- what the caller is given

  /** What the caller was given is, in order and from the start, what the log has for its
      request, and nothing is given before the request was read. */
  lemma GivenIsFromLog(states: seq<Client>, actions: seq<Action>, n: nat, i: nat)
    requires Run(states, actions) && n < |states| && i < |states[n].threads|
    ensures i < |states[n].sub.calls|
    ensures var k, t := states[n].sub.calls[i], states[n].threads[i];
            match k.receive
            case None => t.popped == []
            case Some(receive) =>
              && IsRequest(states[n].log, receive.requestSeq)
              && t.popped + k.queue <= Consume(states[n].log, receive.requestSeq).items
              && (receive.terminal ==> t.popped + k.queue == Consume(states[n].log, receive.requestSeq).items)
  {
    RunKeepsInv(states, actions, n);
    var c := states[n];
    assert ThreadOk(c, i);
    var k := c.sub.calls[i];
    if k.receive.Some? {
      var r := k.receive.value.requestSeq;
      assert At(c.log, r) == At(Seen(c), r);
      ConsumeGrows(Seen(c), c.log, r);
    }
  }

  /** `next_message` waits only for a call that can still be given something: after a
      failure or a close it never does, and otherwise only until the terminal item was
      given. */
  lemma NeverWaitsInVain(states: seq<Client>, actions: seq<Action>, n: nat, i: nat)
    requires Run(states, actions) && n < |states| && i < |states[n].threads| == |states[n].sub.calls|
    requires NextOf(states[n].sub.calls[i]) == Waits
    ensures !states[n].sub.calls[i].localClosed
    ensures states[n].sub.error.Some? ==> IsTerminal(states[n].sub.calls[i])
    ensures IsTerminal(states[n].sub.calls[i]) ==>
              var k, t := states[n].sub.calls[i], states[n].threads[i];
              t.popped != [] && IsFinal(k.streaming, t.popped[|t.popped| - 1])
  {
    RunKeepsInv(states, actions, n);
    var c := states[n];
    assert ThreadOk(c, i) && CallOk(c.sub, i);
    var k, t := c.sub.calls[i], c.threads[i];
    if IsTerminal(k) {
      var r := k.receive.value.requestSeq;
      TerminalIsQueued(Seen(c), r);
      assert t.popped + k.queue == t.popped;
    }
  }

  /** A terminal call's items end with a final one, and no other is. */
  lemma {:induction false} TerminalIsQueued(log: Log, r: nat)
    requires IsRequest(log, r)
    ensures var c, streaming := Consume(log, r), At(log, r).payload.streaming;
            && (c.receive.terminal ==> c.items != [] && IsFinal(streaming, c.items[|c.items| - 1]))
            && (forall i :: 0 <= i < |c.items| && IsFinal(streaming, c.items[i]) ==>
                  c.receive.terminal && i == |c.items| - 1)
    decreases |log|
  {
    if |log| > r {
      var prefix := log[..|log| - 1];
      assert log == prefix + [log[|log| - 1]];
      TerminalIsQueued(prefix, r);
      FinalIsQueued(Consume(prefix, r), At(log, r), r, Message(|log|, log[|log| - 1]));
    }
  }

  ghost predicate EndsFinally(c: Reception, streaming: bool) {
    && (c.receive.terminal ==> c.items != [] && IsFinal(streaming, c.items[|c.items| - 1]))
    && (forall i :: 0 <= i < |c.items| && IsFinal(streaming, c.items[i]) ==> c.receive.terminal && i == |c.items| - 1)
  }

  lemma FinalIsQueued(c: Reception, req: Entry, r: nat, m: Message)
    requires req.payload.InferRequest? && EndsFinally(c, req.payload.streaming)
    ensures EndsFinally(Take(c, req, r, m), req.payload.streaming)
  {
    var after := Take(c, req, r, m);
    if after.items != c.items {
      assert after.items == c.items + [Business(m)] || after.items == c.items + [Broken(m)];
    }
  }

  // ---------------------------------------------------------------- one step of a call

  /** Nothing is queued for the call any more. */
  predicate IsSettled(failed: bool, k: CallState) {
    failed || k.localClosed || IsTerminal(k)
  }

  /** What no step takes back. */
  ghost predicate CallEvolves(failed: bool, t: Thread, k: CallState, t': Thread, k': CallState) {
    && t.popped <= t'.popped
    && (t.stage.Returned? ==> t'.stage.Returned?)
    && (IsSettled(failed, k) && t.stage.Returned? ==>
          k'.receive == k.receive && t'.popped + k'.queue == t.popped + k.queue)
    && (k.localClosed ==> k'.localClosed) && (failed && t.stage.Returned? ==> k'.error == k.error)
    && (t.stage.Returned? && k.result.Some? ==> k'.result == k.result)
    && (t.stage.Returned? && k.completed.Some? ==> k'.completed == k.completed)
    && (k.closeStarted ==> k'.closeStarted)
    && (k.closeDone ==> k'.closeDone && k'.closeError == k.closeError)
    && (t.closing.Cancelling? || t.closing.Closed? ==> t'.closing.Cancelling? || t'.closing.Closed?)
  }

  ghost predicate Evolves(c: Client, c': Client) {
    && |c.threads| == |c.sub.calls| <= |c'.threads| == |c'.sub.calls|
    && (c.sub.error.Some? ==> c'.sub.error == c.sub.error)
    && forall i :: 0 <= i < |c.threads| ==>
         CallEvolves(c.sub.error.Some?, c.threads[i], c.sub.calls[i], c'.threads[i], c'.sub.calls[i])
  }

  lemma PopEvolves(failed: bool, t: Thread, k: CallState, t': Thread, k': CallState)
    requires k.queue != [] && t' == t.(popped := t.popped + [k.queue[0]]) && k' == k.(queue := k.queue[1..])
    ensures CallEvolves(failed, t, k, t', k')
  {
    assert t'.popped + k'.queue == t.popped + k.queue;
  }

  /** The calls after a message that fails nothing. */
  lemma ReadEvolves(c: Client, c': Client, m: Message)
    requires Inv(c) && Reads(c, c', m)
    ensures Evolves(c, c')
  {
    ReadKeeps(c, c', m);
    if m.entry.payload.InferRequest? && m.entry.uuid in c.sub.byUuid {
      FoundIsFrozen(c, m);
      assert CallOk(c.sub, c.sub.byUuid[m.entry.uuid]);
    } else if IsReply(m.entry) && RefSeq(m.entry) in c.sub.bySeq
              && c.sub.calls[c.sub.bySeq[RefSeq(m.entry)]].streamId == m.entry.payload.streamId {
      var i := c.sub.bySeq[RefSeq(m.entry)];
      assert CallOk(c.sub, i);
      AcceptOutputEffect(c.sub, i, m);
      DeliverWritesOnce(ReceptionOf(c.sub.calls[i]), c.sub.calls[i].streaming, m);
    }
  }

  lemma DeliverWritesOnce(rc: Reception, streaming: bool, m: Message)
    requires IsReply(m.entry)
    ensures rc.receive.headSeen ==> Deliver(rc, streaming, m).result == rc.result
    ensures !EndsCompleted(m.entry) ==> Deliver(rc, streaming, m).completed == rc.completed
  {
  }

  lemma PublicationEvolves(c: Client, c': Client, i: nat, q: nat)
    requires Inv(c) && Publishes(c, c', i, q)
    ensures Evolves(c, c')
  {
    PublicationKeeps(c, c', i, q);
    PublishedSeqIsReadSeq(c, i, q);
  }

  lemma CloseEvolves(c: Client, c': Client, i: nat)
    requires Inv(c) && BeginsClose(c, c', i)
    ensures Evolves(c, c')
  {
    CloseBeginDetaches(c.sub, i);
    assert ThreadOk(c, i) && CallOk(c.sub, i);
  }

  lemma FailureEvolves(c: Client, c': Client, error: SubError)
    requires Inv(c) && Fails(c, c', error)
    ensures Evolves(c, c')
  {
    if c.sub.error.None? {
      assert forall i :: 0 <= i < |c.sub.calls| ==> c'.sub.calls[i] == FailCall(c.sub.calls[i], error);
    }
  }

  lemma CloserEvolves(c: Client, a: Action, c': Client)
    requires Inv(c) && Next(c, a, c') && (a.StartCancel? || a.EndClose? || a.ClosesFirst?)
    ensures Evolves(c, c')
  {
    assert a.i < |c.threads| ==> ThreadOk(c, a.i);
    match a
    case ClosesFirst(i) => CloseEvolves(c, c', i);
    case StartCancel(i) =>
    case EndClose(i, found) =>
  }

  lemma AbandonEvolves(c: Client, c': Client, i: nat)
    requires Abandons(c, c', i)
    ensures Evolves(c, c')
  {
  }

  lemma CreateEvolves(c: Client, a: Action, c': Client)
    requires Inv(c) && Next(c, a, c')
    requires a.Prepare? || a.Start? || a.Registration? || a.Attempt? || a.Grow?
    ensures Evolves(c, c')
  {
  }

  lemma StepEvolves(c: Client, a: Action, c': Client)
    requires Inv(c) && Next(c, a, c')
    ensures Evolves(c, c')
  {
    match a
    case Read(m) => ReadEvolves(c, c', m);
    case Publication(i, q) => PublicationEvolves(c, c', i, q);
    case Popped(i) => PopEvolves(c.sub.error.Some?, c.threads[i], c.sub.calls[i], c'.threads[i], c'.sub.calls[i]);
    case Failure(error) => FailureEvolves(c, c', error);
    case Abandon(i) => AbandonEvolves(c, c', i);
    case StartCancel(_) => CloserEvolves(c, a, c');
    case EndClose(_, _) => CloserEvolves(c, a, c');
    case ClosesFirst(_) => CloserEvolves(c, a, c');
    case _ => CreateEvolves(c, a, c');
  }

  lemma EvolvesOn(a: Client, b: Client, c: Client)
    requires Evolves(a, b) && Evolves(b, c)
    ensures Evolves(a, c)
  {
  }

  lemma {:induction false} RunEvolves(states: seq<Client>, actions: seq<Action>, n: nat, m: nat)
    requires Run(states, actions) && n <= m < |states|
    ensures Evolves(states[n], states[m])
    decreases m
  {
    RunKeepsInv(states, actions, n);
    if n < m {
      RunEvolves(states, actions, n, m - 1);
      RunKeepsInv(states, actions, m - 1);
      assert StepAt(states, actions, m - 1);
      StepEvolves(states[m - 1], actions[m - 1], states[m]);
      EvolvesOn(states[n], states[m - 1], states[m]);
    }
  }

  // ---------------------------------------------------------------- over whole runs

  /** Once a stream's terminal was accepted, or it was closed, or the subscription has failed,
      nothing is queued for it any more, and nothing that was queued is lost. */
  lemma SettledQueuesNothing(states: seq<Client>, actions: seq<Action>, n: nat, m: nat, i: nat)
    requires Run(states, actions) && n <= m < |states| && i < |states[n].threads| == |states[n].sub.calls|
    requires states[n].threads[i].stage.Returned? && IsSettled(states[n].sub.error.Some?, states[n].sub.calls[i])
    ensures i < |states[m].threads| == |states[m].sub.calls|
    ensures states[m].threads[i].popped + states[m].sub.calls[i].queue
            == states[n].threads[i].popped + states[n].sub.calls[i].queue
  {
    RunEvolves(states, actions, n, m);
  }

  /** After the failure the caller of an open stream is given exactly the rest of its queue,
      and then, unless the terminal was among it, the subscription's own error. */
  lemma FailureDeliversQueueThenError(states: seq<Client>, actions: seq<Action>, n: nat, m: nat, i: nat)
    requires Run(states, actions) && n <= m < |states| && i < |states[n].threads| == |states[n].sub.calls|
    requires states[n].threads[i].stage.Returned? && states[n].sub.error.Some?
    ensures i < |states[m].threads| == |states[m].sub.calls|
    ensures var t, k := states[m].threads[i], states[m].sub.calls[i];
            && states[n].threads[i].popped <= t.popped
            && t.popped + k.queue == states[n].threads[i].popped + states[n].sub.calls[i].queue
            && (!k.localClosed ==>
                  NextOf(k) == if k.queue != [] then Given(k.queue[0])
                               else if IsTerminal(k) then Waits
                               else Raises(states[n].sub.error.value))
            && (k.localClosed ==>
                  NextOf(k) == if k.queue != [] then Given(k.queue[0])
                               else if k.error.Some? then Raises(states[n].sub.error.value)
                               else Finished)
  {
    RunEvolves(states, actions, n, m);
    RunKeepsInv(states, actions, m);
    assert ThreadOk(states[m], i) && CallOk(states[m].sub, i);
  }

  /** After the stream was returned, `result` and `completed` are written at most once. */
  lemma MetadataIsWriteOnce(states: seq<Client>, actions: seq<Action>, n: nat, m: nat, i: nat)
    requires Run(states, actions) && n <= m < |states| && i < |states[n].threads| == |states[n].sub.calls|
    requires states[n].threads[i].stage.Returned?
    ensures i < |states[m].sub.calls|
    ensures states[n].sub.calls[i].result.Some? ==> states[m].sub.calls[i].result == states[n].sub.calls[i].result
    ensures states[n].sub.calls[i].completed.Some? ==>
              states[m].sub.calls[i].completed == states[n].sub.calls[i].completed
  {
    RunEvolves(states, actions, n, m);
  }

  /** The first error of the subscription is final, and no publication attempt starts
      after it was recorded. */
  lemma NothingIsAttemptedAfterFailure(states: seq<Client>, actions: seq<Action>, n: nat, m: nat)
    requires Run(states, actions) && n <= m < |states| && states[n].sub.error.Some?
    ensures states[m].sub.error == states[n].sub.error
    ensures m < |actions| ==> !actions[m].Attempt? && !actions[m].Registration? && !actions[m].Read?
  {
    RunEvolves(states, actions, n, m);
    if m < |actions| {
      assert StepAt(states, actions, m);
    }
  }

  // ---------------------------------------------------------------- closing

  /** Whatever closers come later, they report what the first close found out. */
  lemma EveryCloserSeesTheSame(states: seq<Client>, actions: seq<Action>, n: nat, m: nat, i: nat)
    requires Run(states, actions) && n <= m < |states| && i < |states[n].sub.calls|
    requires states[n].sub.calls[i].closeDone
    ensures i < |states[m].sub.calls| && states[m].sub.calls[i].closeDone
    ensures states[m].sub.calls[i].closeError == states[n].sub.calls[i].closeError
  {
    RunEvolves(states, actions, n, m);
  }

  /** At most one cancel publication is made for a stream. */
  lemma AtMostOneCancel(states: seq<Client>, actions: seq<Action>, n: nat, m: nat, i: nat)
    requires Run(states, actions) && n < m < |actions| && actions[n] == StartCancel(i)
    ensures actions[m] != StartCancel(i)
  {
    assert StepAt(states, actions, n);
    RunEvolves(states, actions, n + 1, m);
    assert StepAt(states, actions, m);
  }

  /** The close that `n` decided, as long as it has not gone on. */
  ghost predicate DecidedAt(states: seq<Client>, actions: seq<Action>, n: nat, i: nat) {
    && n < |actions| < |states| && actions[n] == ClosesFirst(i)
    && i < |states[n].sub.calls|
    && states[n].sub.error.None? && !IsTerminal(states[n].sub.calls[i]) && states[n].sub.calls[i].requestSeq.Some?
  }

  /** A cancel is published only for a close that found the stream without its terminal, its
      request published, and the subscription not failed. */
  lemma {:induction false} CancelWasDecided(states: seq<Client>, actions: seq<Action>, m: nat, i: nat)
    requires Run(states, actions) && m < |states| && i < |states[m].threads|
    requires states[m].threads[i].closing == Stopped(true)
    ensures exists n: nat :: n < m && DecidedAt(states, actions, n, i)
    decreases m
  {
    if m > 0 {
      var c, a, c' := states[m - 1], actions[m - 1], states[m];
      RunKeepsInv(states, actions, m - 1);
      assert StepAt(states, actions, m - 1);
      if i < |c.threads| && c.threads[i].closing == Stopped(true) {
        CancelWasDecided(states, actions, m - 1, i);
      } else {
        StoppedByClose(c, a, c', i);
        assert DecidedAt(states, actions, m - 1, i);
      }
    }
  }

  lemma StoppedByClose(c: Client, a: Action, c': Client, i: nat)
    requires Inv(c) && Next(c, a, c') && i < |c'.threads| && c'.threads[i].closing == Stopped(true)
    requires !(i < |c.threads| && c.threads[i].closing == Stopped(true))
    ensures a == ClosesFirst(i) && i < |c.sub.calls|
    ensures c.sub.error.None? && !IsTerminal(c.sub.calls[i]) && c.sub.calls[i].requestSeq.Some?
  {
    match a
    case ClosesFirst(j) => CloseBeginDetaches(c.sub, j);
    case _ =>
  }

  /** The first close decides for a cancel exactly when the request was published, the stream
      has no terminal, whether or not the reader has got to its request, and the subscription
      has not failed. */
  lemma OpenStreamsAreCancelled(states: seq<Client>, actions: seq<Action>, n: nat, i: nat)
    requires Run(states, actions) && n < |actions| && actions[n] == ClosesFirst(i)
    ensures i < |states[n].sub.calls| && i < |states[n + 1].threads|
    ensures var k := states[n].sub.calls[i];
            states[n + 1].threads[i].closing
            == Stopped(states[n].sub.error.None? && k.requestSeq.Some?
                       && !(k.receive.Some? && k.receive.value.terminal))
  {
    assert StepAt(states, actions, n);
    CloseBeginDetaches(states[n].sub, i);
  }

  lemma CancelsOnlyLiveStreams(states: seq<Client>, actions: seq<Action>, m: nat, i: nat)
    requires Run(states, actions) && m < |actions| && actions[m] == StartCancel(i)
    ensures exists n: nat :: n < m && DecidedAt(states, actions, n, i)
  {
    assert StepAt(states, actions, m);
    CancelWasDecided(states, actions, m, i);
  }

  // ---------------------------------------------------------------- the stream that is read

  /** A stream opened at `from`: ordered, taken from the log, and without gaps after `from`
      for what the client subscribed to. It may begin with replays and break off anywhere. */
  ghost predicate HonestFor(c: Client, from: nat, messages: seq<Message>) {
    && Ordered(messages) && FromLog(c.log, messages)
    && (forall i :: 0 <= i < |messages| ==>
          Concerns(c, messages[i].entry) || messages[i].entry.payload.Foreign?)
    && (forall i, s :: 0 <= i < |messages| && from < s <= messages[i].seqNo && s <= |c.log| && Concerns(c, At(c.log, s)) ==>
          Delivers(messages, s))
  }

  /** Wherever streams break off and however they overlap, each message of a stream is a
      replay that changes nothing, or the very next message of the log: reading it is a step
      of the client, after which the reader stands right behind it. */
  lemma EveryMessageIsAStep(c: Client, from: nat, messages: seq<Message>, j: nat)
    requires Inv(c) && HonestFor(c, from, messages) && j < |messages|
    requires c.sub.initialFromSeq.Some? && c.sub.error.None?
    requires c.sub.lastSeenSeq == Reached(from, messages, j)
    ensures Shaped(c.sub)
    ensures var c' := c.(sub := ReadOne(c.sub, messages[j]).0);
            && c'.sub.lastSeenSeq == Reached(from, messages, j + 1)
            && c'.sub.error.None? && ReadOne(c.sub, messages[j]).1
            && (c' == c || Reads(c, c', messages[j]))
  {
    IndexedIsShaped(c.sub);
    var m := messages[j];
    if c.sub.lastSeenSeq < m.seqNo {
      var c' := c.(sub := AcceptMessage(c.sub, m).0);
      forall s | c.sub.lastSeenSeq < s < m.seqNo ensures !Concerns(c, At(c.log, s)) {
        if Concerns(c, At(c.log, s)) {
          assert Delivers(messages, s);
          DeliveredBefore(from, messages, j, s);
        }
      }
      assert Reads(c, c', m);
      ReadKeeps(c, c', m);
      ReadMoves(c.sub, m);
    }
  }

  lemma ReadMoves(s: Sub, m: Message)
    requires Shaped(s) && AcceptMessage(s, m).0.error.None?
    ensures AcceptMessage(s, m).1 && AcceptMessage(s, m).0.lastSeenSeq == m.seqNo
  {
  }
}
