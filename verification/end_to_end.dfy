/** From the provider call of some Worker incarnation to the caller of a stream. */
module EndToEnd {
  import opened Protocol
  import opened Progress
  import opened WorkerView
  import opened Consumption
  import S = System
  import SystemInvariant
  import SystemTheorems
  import SystemBodies
  import C = Client
  import ClientProof
  import ClientTheorems
  import opened Delivery
  import View = SubscriptionView
  import OpenAI
  import SystemOrigin
  import opened ProviderEvents

  /** Any run of the Worker system and any run of a client that share the log. */
  ghost predicate Together(states: seq<S.Sys>, actions: seq<S.Action>, cfg: Config, n: nat,
                           clients: seq<C.Client>, moves: seq<C.Action>, m: nat, i: nat) {
    && S.Run(states, actions, cfg) && n < |states|
    && C.Run(clients, moves) && m < |clients|
    && clients[m].log == states[n].log
    && i < |clients[m].threads| == |clients[m].sub.calls|
  }

  /** What the caller of call `i` was given, and for which request. */
  function Given(c: C.Client, i: nat): seq<Item>
    requires i < |c.threads|
  {
    c.threads[i].popped
  }

  /** The chunk bodies a caller is handed are, in order and without loss or duplication, the
      first ones the provider call of its request produced, and none of what it is handed is
      a protocol fault. */
  lemma CallerGetsWhatWasProduced(
    states: seq<S.Sys>, actions: seq<S.Action>, cfg: Config, n: nat,
    clients: seq<C.Client>, moves: seq<C.Action>, m: nat, i: nat, r: nat)
    requires Together(states, actions, cfg, n, clients, moves, m, i)
    requires clients[m].sub.calls[i].receive.Some? && clients[m].sub.calls[i].receive.value.requestSeq == r
    ensures IsRequest(states[n].log, r)
    ensures NoFault(Given(clients[m], i))
    ensures Given(clients[m], i) <= Consume(states[n].log, r).items
    ensures Chunks(Given(clients[m], i)) <= S.Produced(states[n], r)
  {
    ClientTheorems.GivenIsFromLog(clients, moves, m, i);
    var given, full := Given(clients[m], i), Consume(states[n].log, r);
    assert given <= given + clients[m].sub.calls[i].queue <= full.items;
    SystemTheorems.NoRequestFaults(states, actions, cfg, n, r);
    ConsumerTerminalWins(states[n].log, r);
    SystemBodies.StreamIsPrefixOfProduced(states, actions, cfg, n, r);
    ChunksGrow(given, full.items);
    PrefixTransitive(Chunks(given), Chunks(full.items), S.Produced(states[n], r));
  }

  lemma PrefixTransitive(a: seq<Json>, b: seq<Json>, c: seq<Json>)
    requires a <= b <= c
    ensures a <= c
  {
  }

  /** Once the caller has been handed the end that the provider call itself yielded, it has
      been handed everything the call produced. */
  lemma CompleteAtProviderEnd(
    states: seq<S.Sys>, actions: seq<S.Action>, cfg: Config, n: nat,
    clients: seq<C.Client>, moves: seq<C.Action>, m: nat, i: nat, r: nat)
    requires Together(states, actions, cfg, n, clients, moves, m, i)
    requires clients[m].sub.calls[i].receive.Some? && clients[m].sub.calls[i].receive.value.requestSeq == r
    requires Given(clients[m], i) != []
    requires SystemInvariant.IsProviderEnd(Given(clients[m], i)[|Given(clients[m], i)| - 1].message.entry)
    ensures Chunks(Given(clients[m], i)) == S.Produced(states[n], r)
  {
    CallerGetsWhatWasProduced(states, actions, cfg, n, clients, moves, m, i, r);
    SystemTheorems.NoRequestFaults(states, actions, cfg, n, r);
    var log, given := states[n].log, Given(clients[m], i);
    var full := Consume(log, r);
    var last := given[|given| - 1];
    assert full.items[|given| - 1] == last;
    ClientTheorems.TerminalIsQueued(log, r);
    assert View.IsFinal(At(log, r).payload.streaming, last);
    assert given == full.items;
    ConsumerTerminalWins(log, r);
    SystemBodies.StreamIsPrefixOfProduced(states, actions, cfg, n, r);
    assert Wins(log, r, last.message.seqNo);
  }

  /** The terminal a caller is handed is the request's winning terminal, the one every
      incarnation of the Worker goes by. */
  lemma CallerGetsTheWinner(
    states: seq<S.Sys>, actions: seq<S.Action>, cfg: Config, n: nat,
    clients: seq<C.Client>, moves: seq<C.Action>, m: nat, i: nat, r: nat, k: nat)
    requires Together(states, actions, cfg, n, clients, moves, m, i)
    requires clients[m].sub.calls[i].receive.Some? && clients[m].sub.calls[i].receive.value.requestSeq == r
    requires k < |Given(clients[m], i)|
    ensures IsRequest(states[n].log, r)
    ensures View.IsFinal(At(states[n].log, r).payload.streaming, Given(clients[m], i)[k])
            <==> Wins(states[n].log, r, Given(clients[m], i)[k].message.seqNo)
  {
    CallerGetsWhatWasProduced(states, actions, cfg, n, clients, moves, m, i, r);
    SystemTheorems.NoRequestFaults(states, actions, cfg, n, r);
    var log, given := states[n].log, Given(clients[m], i);
    var full := Consume(log, r);
    assert full.items[k] == given[k];
    ClientTheorems.TerminalIsQueued(log, r);
    ConsumerTerminalWins(log, r);
    TerminalIsEarliestCandidate(log, r);
    ItemsAreFromTheLog(log, r);
    if Wins(log, r, given[k].message.seqNo) {
      assert full.receive.terminal;
      var last := full.items[|full.items| - 1];
      assert Wins(log, r, last.message.seqNo);
      assert last.message.seqNo == given[k].message.seqNo;
      assert k == |full.items| - 1;
    }
  }

  /** `__next__` ends the iteration of a stream with the item it takes exactly when that item
      is the request's winning terminal. `taken` is the last of what the caller was given. */
  lemma IterationEndsWithTheWinner(
    states: seq<S.Sys>, actions: seq<S.Action>, cfg: Config, n: nat,
    clients: seq<C.Client>, moves: seq<C.Action>, m: nat, i: nat, r: nat,
    k: View.CallState, before: seq<Item>, taken: seq<Item>, step: OpenAI.Step)
    requires Together(states, actions, cfg, n, clients, moves, m, i)
    requires clients[m].sub.calls[i].receive.Some? && clients[m].sub.calls[i].receive.value.requestSeq == r
    requires OpenAI.AllReplies(k.queue) && OpenAI.Takes(k, taken, step) && taken != []
    requires Given(clients[m], i) == before + taken
    requires k.streaming && IsRequest(states[n].log, r) && At(states[n].log, r).payload.streaming
    ensures OpenAI.EndsWithItem(taken, step) <==> Wins(states[n].log, r, taken[|taken| - 1].message.seqNo)
  {
    OpenAI.FinalEndsIteration(k, taken, step);
    var last := |Given(clients[m], i)| - 1;
    assert Given(clients[m], i)[last] == taken[|taken| - 1];
    CallerGetsTheWinner(states, actions, cfg, n, clients, moves, m, i, r, last);
  }

  // ---------------------------------------------------------------- what the caller is told

  /** An item the client holds or has handed out is one of the request's items in the log. */
  lemma ItemIsFromLog(
    states: seq<S.Sys>, actions: seq<S.Action>, cfg: Config, n: nat,
    clients: seq<C.Client>, moves: seq<C.Action>, m: nat, i: nat, r: nat, item: Item)
    requires Together(states, actions, cfg, n, clients, moves, m, i)
    requires clients[m].sub.calls[i].receive.Some? && clients[m].sub.calls[i].receive.value.requestSeq == r
    requires item in Given(clients[m], i) + clients[m].sub.calls[i].queue
    ensures IsRequest(states[n].log, r) && item in Consume(states[n].log, r).items && item.Business?
    ensures var q := item.message.seqNo;
            MatchAt(states[n].log, r, q) && item.message.entry == At(states[n].log, q)
            && item.message.entry in states[n].log
  {
    ClientTheorems.GivenIsFromLog(clients, moves, m, i);
    SystemTheorems.NoRequestFaults(states, actions, cfg, n, r);
    ConsumerTerminalWins(states[n].log, r);
    ItemsAreFromTheLog(states[n].log, r);
    var held, full := Given(clients[m], i) + clients[m].sub.calls[i].queue, Consume(states[n].log, r).items;
    var k :| 0 <= k < |held| && held[k] == item;
    assert full[k] == item;
  }

  /** An output with the status of a success was yielded by the provider call of its request. */
  lemma SuccessWasYielded(
    states: seq<S.Sys>, actions: seq<S.Action>, cfg: Config, n: nat, r: nat, item: Item)
    requires S.Run(states, actions, cfg) && n < |states| && IsRequest(states[n].log, r)
    requires item.message.entry in states[n].log && SystemInvariant.RefOf(item.message.entry) == r
    requires OpenAI.IsSuccess(item)
    ensures var payload := item.message.entry.payload;
            if At(states[n].log, r).payload.streaming
            then payload.InferEnd? && SystemOrigin.Yielded(actions, n, r, ProviderEvent.Completed(payload.status, payload.endBody))
            else payload.InferResult? && SystemOrigin.Yielded(actions, n, r, Result(payload.status, payload.resultBody.value))
  {
    var e := item.message.entry;
    SystemOrigin.SuccessIsYielded(states, actions, cfg, n, r, e);
    if e.payload.InferResult? {
      SystemOrigin.YieldsFitTheRequest(states, actions, cfg, n, r, Result(e.payload.status, e.payload.resultBody.value));
    } else {
      SystemOrigin.OutputsHaveTheirOrigin(states, actions, cfg, n, e);
      var j: nat :| j < n && SystemOrigin.FrozenAt(actions, j, e);
      assert e.payload.endStatus.Completed?;
      SystemOrigin.YieldsFitTheRequest(states, actions, cfg, n, r,
                                       ProviderEvent.Completed(e.payload.status, e.payload.endBody));
    }
  }

  /** As long as a stream is not closed, its iteration stops only with the request's winning
      terminal, and only if that is the successful end its provider call yielded; while there
      is nothing to take it waits. */
  lemma IterationStopsOnlyAtTheYieldedEnd(
    states: seq<S.Sys>, actions: seq<S.Action>, cfg: Config, n: nat,
    clients: seq<C.Client>, moves: seq<C.Action>, m: nat, i: nat, taken: seq<Item>, step: OpenAI.Step)
    requires Together(states, actions, cfg, n, clients, moves, m, i)
    requires !clients[m].sub.calls[i].localClosed && clients[m].sub.calls[i].streaming
    requires OpenAI.AllReplies(clients[m].sub.calls[i].queue)
    requires OpenAI.Takes(clients[m].sub.calls[i], taken, step) && step.StopIteration?
    ensures clients[m].sub.calls[i].receive.Some? && taken != []
    ensures var r, last := clients[m].sub.calls[i].receive.value.requestSeq, taken[|taken| - 1].message;
            && IsRequest(states[n].log, r) && Wins(states[n].log, r, last.seqNo)
            && last.entry.payload.InferEnd? && 200 <= last.entry.payload.status <= 299
            && SystemOrigin.Yielded(actions, n, r,
                                    ProviderEvent.Completed(last.entry.payload.status, last.entry.payload.endBody))
  {
    var k := clients[m].sub.calls[i];
    OpenAI.StopsOnlyAtAnEnd(k, taken, step);
    QueueNeedsReceive(clients, moves, m, i);
    assert k.queue != [] && k.receive.Some?;
    var r, item := k.receive.value.requestSeq, taken[|taken| - 1];
    assert item == k.queue[|taken| - 1];
    assert item in Given(clients[m], i) + k.queue;
    ItemIsFromLog(states, actions, cfg, n, clients, moves, m, i, r, item);
    ClientTheorems.CallMatchesItsRequest(clients, moves, m, i);
    SuccessWasYielded(states, actions, cfg, n, r, item);
    FinalItemWins(states, actions, cfg, n, r, item);
  }

  lemma QueueNeedsReceive(clients: seq<C.Client>, moves: seq<C.Action>, m: nat, i: nat)
    requires C.Run(clients, moves) && m < |clients| && i < |clients[m].sub.calls|
    ensures clients[m].sub.calls[i].queue != [] ==> clients[m].sub.calls[i].receive.Some?
  {
    ClientProof.RunKeepsInv(clients, moves, m);
    assert View.CallOk(clients[m].sub, i);
  }

  lemma FinalItemWins(states: seq<S.Sys>, actions: seq<S.Action>, cfg: Config, n: nat, r: nat, item: Item)
    requires S.Run(states, actions, cfg) && n < |states| && IsRequest(states[n].log, r)
    requires item in Consume(states[n].log, r).items && View.IsFinal(At(states[n].log, r).payload.streaming, item)
    ensures Wins(states[n].log, r, item.message.seqNo)
  {
    var full := Consume(states[n].log, r);
    SystemTheorems.NoRequestFaults(states, actions, cfg, n, r);
    ClientTheorems.TerminalIsQueued(states[n].log, r);
    ConsumerTerminalWins(states[n].log, r);
  }

  /** The log has this status at `q`, in an output that the provider call of its request
      yielded or the Worker reported. */
  ghost predicate SaysStatus(actions: seq<S.Action>, n: nat, log: Log, q: nat, status: int) {
    && 1 <= q <= |log| && SystemOrigin.HasOrigin(actions, n, At(log, q))
    && match At(log, q).payload
       case InferResult(_, _, s, _) => s == status
       case InferEnd(_, _, s, _, _) => s == status
       case _ => false
  }

  lemma StatusIsSaid(states: seq<S.Sys>, actions: seq<S.Action>, cfg: Config, n: nat, q: nat)
    requires S.Run(states, actions, cfg) && n < |states| && 1 <= q <= |states[n].log|
    requires At(states[n].log, q).payload.InferResult? || At(states[n].log, q).payload.InferEnd?
    ensures SaysStatus(actions, n, states[n].log, q, At(states[n].log, q).payload.status)
  {
    SystemOrigin.OutputsHaveTheirOrigin(states, actions, cfg, n, At(states[n].log, q));
  }

  /** A stream yields only bodies its provider call yielded as appends, raises only the status
      of an output, is cancelled only by a cancel, and never reports a fault. */
  lemma StepsSayWhatWasYielded(
    states: seq<S.Sys>, actions: seq<S.Action>, cfg: Config, n: nat,
    clients: seq<C.Client>, moves: seq<C.Action>, m: nat, i: nat, r: nat, taken: seq<Item>, step: OpenAI.Step)
    requires Together(states, actions, cfg, n, clients, moves, m, i)
    requires clients[m].sub.calls[i].receive.Some? && clients[m].sub.calls[i].receive.value.requestSeq == r
    requires OpenAI.AllReplies(clients[m].sub.calls[i].queue)
    requires OpenAI.Takes(clients[m].sub.calls[i], taken, step)
    ensures !step.ProtocolFailure?
    ensures step.Chunk? ==> exists status :: SystemOrigin.Yielded(actions, n, r, Append(status, step.body))
    ensures step.ApiError? ==> SaysStatus(actions, n, states[n].log, step.seqNo, step.status)
    ensures step.Cancelled? ==> 1 <= step.seqNo <= |states[n].log| && At(states[n].log, step.seqNo).payload.InferCancel?
  {
    var k := clients[m].sub.calls[i];
    if taken != [] && !OpenAI.IsSilent(taken[|taken| - 1]) {
      var item := taken[|taken| - 1];
      assert item == k.queue[|taken| - 1];
      assert item in Given(clients[m], i) + k.queue;
      ItemIsFromLog(states, actions, cfg, n, clients, moves, m, i, r, item);
      OpenAI.StepSaysWhatItemSays(k, taken, step);
      if step.Chunk? {
        AppendWasYielded(states, actions, cfg, n, r, item.message.entry);
      } else if step.ApiError? {
        StatusIsSaid(states, actions, cfg, n, item.message.seqNo);
      }
    }
  }

  lemma AppendWasYielded(states: seq<S.Sys>, actions: seq<S.Action>, cfg: Config, n: nat, r: nat, e: Entry)
    requires S.Run(states, actions, cfg) && n < |states| && e in states[n].log
    requires e.payload.InferAppend? && SystemInvariant.RefOf(e) == r
    ensures exists status :: SystemOrigin.Yielded(actions, n, r, Append(status, e.payload.chunk))
  {
    SystemOrigin.OutputsHaveTheirOrigin(states, actions, cfg, n, e);
    var j: nat :| j < n && SystemOrigin.FrozenAt(actions, j, e);
    match actions[j]
    case Yield(q, event) =>
      assert event == Append(event.status, e.payload.chunk);
      assert SystemOrigin.Yielded(actions, n, r, event);
    case _ =>
  }

  /** An ordinary call is answered with a response exactly when the winning result has the
      status of a success, and then with the status and body its provider call yielded. */
  lemma ResponseIsTheYieldedResult(
    states: seq<S.Sys>, actions: seq<S.Action>, cfg: Config, n: nat,
    clients: seq<C.Client>, moves: seq<C.Action>, m: nat, i: nat, r: nat, item: Item)
    requires Together(states, actions, cfg, n, clients, moves, m, i)
    requires clients[m].sub.calls[i].receive.Some? && clients[m].sub.calls[i].receive.value.requestSeq == r
    requires !clients[m].sub.calls[i].streaming
    requires item in Given(clients[m], i) + clients[m].sub.calls[i].queue
    ensures IsRequest(states[n].log, r) && Wins(states[n].log, r, item.message.seqNo)
    ensures OpenAI.IsOrdinaryItem(item) && item.message.entry == At(states[n].log, item.message.seqNo)
    ensures var payload := item.message.entry.payload;
            var answer := OpenAI.AnswerOf(item);
            if 200 <= payload.status <= 299
            then answer == OpenAI.Response(item.message.seqNo, payload.status, payload.resultBody.value)
                 && SystemOrigin.Yielded(actions, n, r, Result(payload.status, payload.resultBody.value))
            else answer == OpenAI.ErrorStatus(item.message.seqNo, payload.status)
                 && SaysStatus(actions, n, states[n].log, item.message.seqNo, payload.status)
  {
    ItemIsFromLog(states, actions, cfg, n, clients, moves, m, i, r, item);
    ClientTheorems.CallMatchesItsRequest(clients, moves, m, i);
    OpenAI.OrdinaryItems(states[n].log, r);
    FinalItemWins(states, actions, cfg, n, r, item);
    if 200 <= item.message.entry.payload.status <= 299 {
      SuccessWasYielded(states, actions, cfg, n, r, item);
    } else {
      StatusIsSaid(states, actions, cfg, n, item.message.seqNo);
    }
  }

  /** And when the result the call yielded is committed as the winner, that is the answer. */
  lemma YieldedResultIsTheResponse(st: State, status: int, body: Json, q: nat, e: Entry)
    requires e.payload == S.OutputPayload(st, Result(status, body), None)
    ensures OpenAI.IsOrdinaryItem(Business(Message(q, e)))
    ensures OpenAI.AnswerOf(Business(Message(q, e)))
            == if 200 <= status <= 299 then OpenAI.Response(q, status, body) else OpenAI.ErrorStatus(q, status)
  {
  }
}
