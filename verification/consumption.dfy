/** What one consumer makes of a request's outputs, and that it agrees with the Worker. */
module Consumption {
  import opened Protocol
  import opened Progress
  import opened Delivery

  /** What a call's queue holds: a message, or a ProtocolFault about one. */
  datatype Item = Business(message: Message) | Broken(message: Message)

  datatype Receive = Receive(requestSeq: nat, chainSeq: nat, headSeen: bool, terminal: bool)

  /** The part of a call that accepted outputs change. */
  datatype Reception = Reception(receive: Receive, items: seq<Item>, result: Option<Message>,
                                 completed: Option<Message>)

  function Admitted(r: nat): Reception {
    Reception(Receive(r, r, false, false), [], None, None)
  }

  function Enqueue(c: Reception, item: Item, terminal: bool): Reception {
    c.(items := c.items + [item], receive := c.receive.(terminal := c.receive.terminal || terminal))
  }

  /** `_accept_output_locked`. */
  function Deliver(c: Reception, streaming: bool, m: Message): Reception
    requires IsReply(m.entry)
  {
    match m.entry.payload
    case InferResult(_, _, _, body) =>
      if c.receive.headSeen then c
      else if !streaming && body.None? then Enqueue(c, Broken(m), true)
      else
        var chain := if body.None? then m.seqNo else c.receive.chainSeq;
        Enqueue(c.(receive := c.receive.(headSeen := true, chainSeq := chain), result := Some(m)),
                Business(m), body.Some?)
    case InferAppend(_, _, prev, _) =>
      if !streaming then c
      else if !c.receive.headSeen || prev != c.receive.chainSeq then Enqueue(c, Broken(m), true)
      else Enqueue(c.(receive := c.receive.(chainSeq := m.seqNo)), Business(m), false)
    case InferEnd(_, _, _, status, _) =>
      if !streaming then c
      else Enqueue(if status.Completed? then c.(completed := Some(m)) else c, Business(m), true)
    case _ =>
      if !streaming then c else Enqueue(c, Business(m), true)
  }

  /** One entry of the log, as the call for request `r` takes it. */
  function Take(c: Reception, req: Entry, r: nat, m: Message): Reception
    requires req.payload.InferRequest?
  {
    if c.receive.terminal || !Matches(req, r, m.entry) then c else Deliver(c, req.payload.streaming, m)
  }

  /** Everything the call for request `r` accepts of the log. */
  function Consume(log: Log, r: nat): Reception
    requires IsRequest(log, r)
    decreases |log|
  {
    if |log| == r then Admitted(r)
    else Take(Consume(log[..|log| - 1], r), At(log, r), r, Message(|log|, log[|log| - 1]))
  }

  lemma ConsumeStep(log: Log, r: nat, e: Entry)
    requires IsRequest(log, r)
    ensures IsRequest(log + [e], r)
    ensures Consume(log + [e], r) == Take(Consume(log, r), At(log, r), r, Message(|log| + 1, e))
  {
    var more := log + [e];
    assert more[..|log|] == log && more[|log|] == e && At(more, r) == At(log, r);
  }

  /** What was queued stays, in place; after a terminal nothing is queued any more. */
  lemma {:induction false} ConsumeGrows(log: Log, more: Log, r: nat)
    requires IsRequest(log, r) && log <= more
    ensures IsRequest(more, r) && Consume(log, r).items <= Consume(more, r).items
    ensures Consume(log, r).receive.terminal ==> Consume(more, r) == Consume(log, r)
    decreases |more|
  {
    if |more| > |log| {
      var prefix := more[..|more| - 1];
      assert more == prefix + [more[|more| - 1]];
      ConsumeGrows(log, prefix, r);
      ConsumeStep(prefix, r, more[|more| - 1]);
    } else {
      assert more == log;
    }
  }

  /** The call's request entry itself, and a new request, queue nothing. */
  lemma {:induction false} ConsumeSkips(log: Log, more: Log, r: nat)
    requires IsRequest(log, r) && log <= more
    requires forall s :: |log| < s <= |more| ==> !Matches(At(log, r), r, At(more, s))
    ensures IsRequest(more, r) && Consume(more, r) == Consume(log, r)
    decreases |more|
  {
    if |more| > |log| {
      var prefix := more[..|more| - 1];
      assert more == prefix + [more[|more| - 1]];
      assert forall s :: |log| < s <= |prefix| ==> At(prefix, s) == At(more, s);
      ConsumeSkips(log, prefix, r);
      ConsumeStep(prefix, r, more[|more| - 1]);
      assert At(more, |more|) == more[|more| - 1];
    } else {
      assert more == log;
    }
  }

  // ---------------------------------------------------------------- agreement with the Worker

  function Chunk(item: Item): seq<Json> {
    if item.Business? && item.message.entry.payload.InferAppend? then [item.message.entry.payload.chunk] else []
  }

  /** The chunk bodies among the items. */
  function Chunks(items: seq<Item>): seq<Json>
    decreases |items|
  {
    if items == [] then [] else Chunks(items[..|items| - 1]) + Chunk(items[|items| - 1])
  }

  lemma ChunksStep(items: seq<Item>, item: Item)
    ensures Chunks(items + [item]) == Chunks(items) + Chunk(item)
  {
    assert (items + [item])[..|items|] == items;
  }

  lemma {:induction false} ChunksGrow(items: seq<Item>, more: seq<Item>)
    requires items <= more
    ensures Chunks(items) <= Chunks(more)
    decreases |more|
  {
    if |more| > |items| {
      ChunksGrow(items, more[..|more| - 1]);
    } else {
      assert more == items;
    }
  }

  ghost predicate NoFault(items: seq<Item>) {
    forall i :: 0 <= i < |items| ==> items[i].Business?
  }

  predicate EndsCompleted(e: Entry) {
    e.payload.InferEnd? && e.payload.endStatus.Completed?
  }

  /** The consumer and the Worker are at the same point of the request. */
  ghost predicate Agrees(c: Reception, p: Progress, bodies: seq<Json>, streaming: bool) {
    match p
    case Progress(chain, None) =>
      && !c.receive.terminal && NoFault(c.items) && Chunks(c.items) == bodies
      && chain == (if c.receive.headSeen then Some(c.receive.chainSeq) else None)
      && c.completed.None? && (c.result.Some? <==> chain.Some?)
    case Progress(chain, Some(w)) =>
      && c.receive.terminal && NoFault(c.items) && Chunks(c.items) == bodies
      && c.items != [] && (c.result.Some? <==> chain.Some?)
      && var last := c.items[|c.items| - 1].message;
      && last.seqNo == w && c.completed == (if EndsCompleted(last.entry) then Some(last) else None)
    case Fault =>
      streaming ==> c.receive.terminal && c.items != [] && c.items[|c.items| - 1].Broken?
  }

  lemma EnqueueAgrees(c: Reception, item: Item, terminal: bool)
    ensures Chunks(Enqueue(c, item, terminal).items) == Chunks(c.items) + Chunk(item)
    ensures NoFault(c.items) && item.Business? ==> NoFault(Enqueue(c, item, terminal).items)
  {
    ChunksStep(c.items, item);
  }

  lemma DeliverAgrees(c: Reception, chain: Option<nat>, bodies: seq<Json>, req: Entry, r: nat, m: Message)
    requires req.payload.InferRequest? && Matches(req, r, m.entry)
    requires Agrees(c, Progress(chain, None), bodies, req.payload.streaming)
    ensures Agrees(Deliver(c, req.payload.streaming, m), Advance(Progress(chain, None), req, r, m.entry, m.seqNo),
                   bodies + Taken(Progress(chain, None), req, r, m.entry), req.payload.streaming)
  {
    EnqueueAgrees(c, Business(m), true);
    EnqueueAgrees(c, Business(m), false);
    var after := Deliver(c, req.payload.streaming, m);
    match m.entry.payload
    case InferResult(_, _, _, body) =>
      assert after.items == c.items || after.items[|c.items|].message == m;
    case InferAppend(_, _, _, _) =>
    case _ =>
  }

  lemma TakeAgrees(c: Reception, p: Progress, bodies: seq<Json>, req: Entry, r: nat, m: Message)
    requires req.payload.InferRequest? && Agrees(c, p, bodies, req.payload.streaming)
    ensures Agrees(Take(c, req, r, m), Advance(p, req, r, m.entry, m.seqNo),
                   bodies + Taken(p, req, r, m.entry), req.payload.streaming)
  {
    if p.Progress? && p.terminal.None? && Matches(req, r, m.entry) {
      DeliverAgrees(c, p.chain, bodies, req, r, m);
    } else {
      assert Advance(p, req, r, m.entry, m.seqNo) == p;
      assert bodies + Taken(p, req, r, m.entry) == bodies;
    }
  }

  /** On every log and for every request, the consumer's state is the Worker's: the same
      terminal, the same chain, the same chunks, and no fault that the Worker does not have. */
  lemma {:induction false} ConsumerAgrees(log: Log, r: nat)
    requires IsRequest(log, r)
    ensures Agrees(Consume(log, r), Track(log, r), Bodies(log, r), At(log, r).payload.streaming)
    decreases |log|
  {
    if |log| > r {
      var prefix, e := log[..|log| - 1], log[|log| - 1];
      assert log == prefix + [e];
      ConsumerAgrees(prefix, r);
      TakeAgrees(Consume(prefix, r), Track(prefix, r), Bodies(prefix, r), At(log, r), r, Message(|log|, e));
    }
  }

  /** Every item is about an entry of the log addressed to the request, in order. */
  ghost predicate FromTheLog(items: seq<Item>, log: Log, r: nat)
    requires IsRequest(log, r)
  {
    && (forall i :: 0 <= i < |items| ==>
          var m := items[i].message; MatchAt(log, r, m.seqNo) && m.entry == At(log, m.seqNo))
    && (forall i, j :: 0 <= i < j < |items| ==> items[i].message.seqNo < items[j].message.seqNo)
  }

  lemma {:induction false} ItemsAreFromTheLog(log: Log, r: nat)
    requires IsRequest(log, r)
    ensures FromTheLog(Consume(log, r).items, log, r)
    decreases |log|
  {
    if |log| > r {
      var prefix, e := log[..|log| - 1], log[|log| - 1];
      assert log == prefix + [e];
      ItemsAreFromTheLog(prefix, r);
      CandidateExtends(prefix, e, r);
      var before, after := Consume(prefix, r).items, Consume(log, r).items;
      assert after == before || (MatchAt(log, r, |log|) && |after| == |before| + 1 && before == after[..|before|]
                                 && after[|before|].message == Message(|log|, e));
      forall i | 0 <= i < |before|
        ensures var m := before[i].message; MatchAt(log, r, m.seqNo) && m.entry == At(log, m.seqNo)
      {
        var m := before[i].message;
        assert MatchAt(prefix, r, m.seqNo);
        assert At(log, m.seqNo) == At(prefix, m.seqNo);
      }
    }
  }

  /** The terminal of a call: its last item is the winning message itself. */
  ghost predicate DeliversWinner(c: Reception, log: Log, r: nat)
    requires IsRequest(log, r)
  {
    c.items != [] &&
    var last := c.items[|c.items| - 1];
    last.Business? && Wins(log, r, last.message.seqNo) && last.message.entry == At(log, last.message.seqNo)
  }

  lemma TerminalDelivered(log: Log, r: nat, c: Reception, w: nat)
    requires IsRequest(log, r) && FromTheLog(c.items, log, r) && Wins(log, r, w) && NoFault(c.items)
    requires c.items != [] && c.items[|c.items| - 1].message.seqNo == w
    ensures DeliversWinner(c, log, r)
  {
  }

  /** The terminal the consumer delivers is the earliest candidate of the log, on every log
      without a fault; it is the last item, and all items are messages. */
  lemma ConsumerTerminalWins(log: Log, r: nat)
    requires IsRequest(log, r) && Track(log, r).Progress?
    ensures NoFault(Consume(log, r).items) && Chunks(Consume(log, r).items) == Bodies(log, r)
    ensures Consume(log, r).receive.terminal <==> exists t: nat :: Wins(log, r, t)
    ensures Consume(log, r).receive.terminal ==> DeliversWinner(Consume(log, r), log, r)
  {
    ConsumerAgrees(log, r);
    TerminalIsEarliestCandidate(log, r);
    ItemsAreFromTheLog(log, r);
    var p := Track(log, r);
    if p.terminal.Some? {
      TerminalDelivered(log, r, Consume(log, r), p.terminal.value);
    }
  }

  ghost predicate FirstResultAt(log: Log, r: nat, t: nat)
    requires IsRequest(log, r)
  {
    ResultAt(log, r, t) && forall u :: r < u < t ==> !ResultAt(log, r, u)
  }

  /** What an ordinary call holds, on any log at all: nothing until the first result, and
      then that result, as a fault when it has no body. Unlike the Worker it does not look
      at appends. */
  ghost predicate OrdinaryOutcome(c: Reception, log: Log, r: nat)
    requires IsRequest(log, r)
  {
    if c.receive.terminal then
      && |c.items| == 1
      && var m := c.items[0].message;
      && FirstResultAt(log, r, m.seqNo) && m.entry == At(log, m.seqNo)
      && (c.items[0].Broken? <==> m.entry.payload.resultBody.None?)
    else c.items == [] && !c.receive.headSeen && forall t :: !ResultAt(log, r, t)
  }

  lemma {:induction false} OrdinaryTakesFirstResult(log: Log, r: nat)
    requires IsRequest(log, r) && !At(log, r).payload.streaming
    ensures OrdinaryOutcome(Consume(log, r), log, r)
    decreases |log|
  {
    if |log| > r {
      var prefix, e := log[..|log| - 1], log[|log| - 1];
      assert log == prefix + [e];
      assert At(log, r) == At(prefix, r);
      OrdinaryTakesFirstResult(prefix, r);
      CandidateExtends(prefix, e, r);
      var before := Consume(prefix, r);
      if before.receive.terminal {
        var t := before.items[0].message.seqNo;
        assert ResultAt(log, r, t) && At(log, t) == At(prefix, t);
        assert forall u :: r < u < t ==> ResultAt(log, r, u) == ResultAt(prefix, r, u);
      } else {
        assert forall t :: 0 <= t <= |prefix| ==> !ResultAt(prefix, r, t);
      }
    }
  }

  /** The message kept as the call's result: the first result of the log, and only a call
      that ended without one has passed one over. */
  ghost predicate HoldsFirstResult(c: Reception, log: Log, r: nat)
    requires IsRequest(log, r)
  {
    match c.result
    case Some(m) =>
      c.receive.headSeen && Business(m) in c.items && FirstResultAt(log, r, m.seqNo) && m.entry == At(log, m.seqNo)
    case None => !c.receive.headSeen && (!c.receive.terminal ==> forall t :: !ResultAt(log, r, t))
  }

  lemma {:induction false} ResultIsTheFirst(log: Log, r: nat)
    requires IsRequest(log, r)
    ensures HoldsFirstResult(Consume(log, r), log, r)
    decreases |log|
  {
    if |log| > r {
      var prefix, e := log[..|log| - 1], log[|log| - 1];
      assert log == prefix + [e];
      ResultIsTheFirst(prefix, r);
      CandidateExtends(prefix, e, r);
      var before := Consume(prefix, r);
      if before.result.Some? {
        var t := before.result.value.seqNo;
        assert ResultAt(prefix, r, t) && At(log, t) == At(prefix, t);
        assert forall u :: r < u < t ==> ResultAt(log, r, u) == ResultAt(prefix, r, u);
      } else if !before.receive.terminal {
        assert forall t :: 0 <= t <= |prefix| ==> !ResultAt(prefix, r, t);
      }
    }
  }

  // ---------------------------------------------------------------- where the two readers part

  /** Worker and consumer conclude the same: a fault, or the same terminal, or none yet. */
  ghost predicate SameConclusion(log: Log, r: nat)
    requires IsRequest(log, r)
  {
    var c := Consume(log, r);
    match Track(log, r)
    case Fault => !NoFault(c.items)
    case Progress(_, terminal) =>
      && NoFault(c.items) && (c.receive.terminal ==> c.items != [])
      && terminal == if c.receive.terminal then Some(c.items[|c.items| - 1].message.seqNo) else None
  }

  /** An append to the request precedes every result to it. */
  ghost predicate AppendComesFirst(log: Log, r: nat)
    requires IsRequest(log, r)
  {
    exists a :: AppendAt(log, r, a) && NoResultBefore(log, r, a)
  }

  ghost predicate NoResultBefore(log: Log, r: nat, a: nat)
    requires IsRequest(log, r)
  {
    forall u :: r < u < a ==> !ResultAt(log, r, u)
  }

  ghost predicate FirstResultIsBodyless(log: Log, r: nat)
    requires IsRequest(log, r)
  {
    exists t :: FirstResultAt(log, r, t) && At(log, t).payload.resultBody.None?
  }

  lemma {:induction false} SomeResultIsFirst(log: Log, r: nat, t: nat)
    requires IsRequest(log, r) && ResultAt(log, r, t)
    ensures exists u: nat :: u <= t && FirstResultAt(log, r, u)
    decreases t
  {
    if !FirstResultAt(log, r, t) {
      var u: nat :| r < u < t && ResultAt(log, r, u);
      SomeResultIsFirst(log, r, u);
    }
  }

  /** The first malformed entry, when no candidate comes before. */
  lemma {:induction false} SomeMalformedIsFirst(log: Log, r: nat, t: nat)
    requires IsRequest(log, r) && r < t <= |log| && Malformed(log, r, t)
    requires forall u :: r < u < t ==> !Candidate(log, r, u)
    ensures exists u :: FirstFault(log, r, u)
    decreases t
  {
    if !FirstFault(log, r, t) {
      var u: nat :| r < u < t && Malformed(log, r, u);
      SomeMalformedIsFirst(log, r, u);
    }
  }

  lemma FirstResultDecides(log: Log, r: nat, t: nat)
    requires IsRequest(log, r) && !At(log, r).payload.streaming && FirstResultAt(log, r, t)
    ensures Candidate(log, r, t) || Malformed(log, r, t)
  {
  }

  /** An ordinary request's first fault is a bodyless first result or an append before any. */
  lemma OrdinaryFirstFault(log: Log, r: nat, t: nat)
    requires IsRequest(log, r) && !At(log, r).payload.streaming && FirstFault(log, r, t)
    ensures AppendAt(log, r, t) || (FirstResultAt(log, r, t) && At(log, t).payload.resultBody.None?)
    ensures NoResultBefore(log, r, t)
  {
    forall u: nat | r < u < t ensures !ResultAt(log, r, u) {
      if ResultAt(log, r, u) {
        SomeResultIsFirst(log, r, u);
        var first: nat :| first <= u && FirstResultAt(log, r, first);
        FirstResultDecides(log, r, first);
      }
    }
  }

  lemma AppendFaultsOrdinary(log: Log, r: nat, a: nat)
    requires IsRequest(log, r) && !At(log, r).payload.streaming
    requires AppendAt(log, r, a) && NoResultBefore(log, r, a)
    ensures Track(log, r).Fault?
  {
    assert Malformed(log, r, a);
    forall u: nat | r < u < a ensures !Candidate(log, r, u) {
      assert !ResultAt(log, r, u);
    }
    SomeMalformedIsFirst(log, r, a);
    FaultIsFirstMalformed(log, r);
  }

  /** Without a bodyless first result an ordinary call has no fault. */
  lemma OrdinaryFaultless(log: Log, r: nat)
    requires IsRequest(log, r) && !At(log, r).payload.streaming
    ensures NoFault(Consume(log, r).items) <==> !FirstResultIsBodyless(log, r)
  {
    OrdinaryTakesFirstResult(log, r);
    var c := Consume(log, r);
    if c.receive.terminal {
      var m := c.items[0].message;
      assert FirstResultAt(log, r, m.seqNo);
      assert forall t :: FirstResultAt(log, r, t) ==> t == m.seqNo;
    }
  }

  /** On which logs the Worker and a consumer part: exactly those where the request is
      ordinary, an append to it precedes every result to it, and its first result, if there
      is one, has a body. There the Worker raises ProtocolError and the consumer does not. */
  lemma ReadersPartExactly(log: Log, r: nat)
    requires IsRequest(log, r)
    ensures !SameConclusion(log, r) <==>
            && !At(log, r).payload.streaming && AppendComesFirst(log, r) && !FirstResultIsBodyless(log, r)
    ensures !SameConclusion(log, r) <==> Track(log, r).Fault? && NoFault(Consume(log, r).items)
    ensures !NoFault(Consume(log, r).items) ==> Track(log, r).Fault?
  {
    ConsumerAgrees(log, r);
    if !At(log, r).payload.streaming {
      OrdinaryFaultless(log, r);
      if a :| AppendAt(log, r, a) && NoResultBefore(log, r, a) {
        AppendFaultsOrdinary(log, r, a);
      }
      if Track(log, r).Fault? {
        FaultIsFirstMalformed(log, r);
        var t :| FirstFault(log, r, t);
        OrdinaryFirstFault(log, r, t);
      }
    }
  }

  /** Such a log: the Worker raises ProtocolError over an append to an ordinary request, and
      the consumer goes on to take the result that follows. */
  lemma AppendToOrdinaryRequestDivides()
    ensures exists log: Log ::
              IsRequest(log, 1) && Track(log, 1).Fault?
              && Consume(log, 1).receive.terminal && NoFault(Consume(log, 1).items)
  {
    var start: Log := [Entry(1, 1, 2, InferRequest("s", false, None, "{}", 2))];
    var append := Entry(2, 1, 1, InferAppend("s", 1, 1, "chunk"));
    var result := Entry(3, 1, 1, InferResult("s", 1, 200, Some("body")));
    TrackStep(start, 1, append);
    TrackStep(start + [append], 1, result);
    ConsumeStep(start, 1, append);
    ConsumeStep(start + [append], 1, result);
    var log := start + [append] + [result];
    assert IsRequest(log, 1) && Track(log, 1).Fault?;
  }
}
