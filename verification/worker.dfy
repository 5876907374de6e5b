/** The Worker's own form: objects whose fields its critical sections update in place.
    Every method is proved against the functions of `WorkerView`. */
module WorkerClass {
  import opened Protocol
  import opened Progress
  import opened WorkerView
  import opened Delivery

  datatype ScanOutcome = Complete | Unavailable | NotAdvancing | NotOrdered | Raised

  lemma {:induction false} Least(s: set<nat>) returns (r: nat)
    requires s != {}
    ensures r in s && forall q :: q in s ==> r <= q
    decreases |s|
  {
    var x :| x in s;
    var rest := s - {x};
    assert s == rest + {x};
    if rest == {} {
      r := x;
    } else {
      var m := Least(rest);
      r := Min(m, x);
    }
  }

  method Sorted(s: set<nat>) returns (todo: seq<nat>)
    ensures forall r :: r in todo <==> r in s
    ensures forall i, j :: 0 <= i < j < |todo| ==> todo[i] < todo[j]
  {
    var rest := s;
    todo := [];
    while rest != {}
      invariant forall r :: r in todo || r in rest <==> r in s
      invariant forall i, j :: 0 <= i < j < |todo| ==> todo[i] < todo[j]
      invariant forall q, r :: q in todo && r in rest ==> q < r
      decreases |rest|
    {
      ghost var least := Least(rest);
      var r :| r in rest && forall q :: q in rest ==> r <= q;
      assert forall i :: 0 <= i < |todo| ==> todo[i] in todo;
      todo := todo + [r];
      rest := rest - {r};
    }
  }

  class RequestState {
    const channel: nat
    const requestSeq: nat
    const principal: nat
    const streamId: string
    const streaming: bool
    const duplicate: bool
    var body: Option<Json>
    var provider: Option<string>
    var phase: Phase
    var chainSeq: Option<nat>
    var terminalSeq: Option<nat>
    var operation: bool

    function Value(): State
      reads this
    {
      State(channel, requestSeq, principal, streamId, streaming, duplicate, body, provider, phase,
            chainSeq, terminalSeq, operation)
    }

    constructor (e: Entry, at: nat, duplicate: bool)
      requires e.payload.InferRequest?
      ensures Value() == NewState(e, at, duplicate)
    {
      channel, requestSeq, principal := e.channel, at, e.principal;
      streamId, streaming, this.duplicate := e.payload.streamId, e.payload.streaming, duplicate;
      body, provider, phase := None, None, Pending;
      chainSeq, terminalSeq, operation := None, None, false;
    }
  }

  class Worker {
    const cfg: Config
    var requests: map<nat, RequestState>
    var originals: set<(nat, string)>
    var pending: seq<nat>
    var controls: seq<(nat, int)>
    var running: nat
    var stopped: bool
    var lastSeenSeq: nat

    ghost predicate Valid()
      reads this, requests.Values
    {
      forall r :: r in requests ==> requests[r].requestSeq == r
    }

    ghost function AsView(): View
      reads this, requests.Values
    {
      View(map r | r in requests :: requests[r].Value(), originals, pending, controls, running)
    }

    /** An update of one state object shows in the view at that request only. */
    twostate lemma OneStateChanged(state: RequestState)
      requires old(Valid()) && Valid() && requests == old(requests)
      requires state.requestSeq in requests && requests[state.requestSeq] == state
      requires forall r :: r in requests && requests[r] != state ==> unchanged(requests[r])
      ensures AsView().requests == old(AsView()).requests[state.requestSeq := state.Value()]
    {
      forall r | r in requests && r != state.requestSeq
        ensures requests[r].Value() == old(requests[r].Value())
      {
        assert requests[r] != state;
      }
    }

    constructor (cfg: Config)
      ensures Valid() && AsView() == EMPTY_VIEW && this.cfg == cfg && !stopped && lastSeenSeq == 0
      ensures requests == map[]
    {
      this.cfg := cfg;
      requests, originals, pending, controls, running := map[], {}, [], [], 0;
      stopped, lastSeenSeq := false, 0;
    }

    /** `_retire_locked`. */
    method RetireLocked(state: RequestState)
      requires Valid() && state.requestSeq in requests && requests[state.requestSeq] == state
      modifies this`requests
      ensures Valid() && AsView() == Retire(old(AsView()), state.requestSeq)
      ensures requests.Values <= old(requests.Values)
    {
      if state.terminalSeq.Some? && state.phase != Running {
        requests := requests - {state.requestSeq};
      }
    }

    /** The request branch of `_accept`. */
    method AcceptRequest(e: Entry, at: nat, historical: bool)
      requires Valid() && e.payload.InferRequest?
      modifies this`requests, this`originals, this`pending, this`controls
      ensures Valid() && AsView() == WorkerView.AcceptRequest(old(AsView()), cfg, e, at, historical)
      ensures fresh(requests.Values - old(requests.Values))
    {
      if at in requests {
        return;
      }
      var key := (e.channel, e.payload.streamId);
      var state := new RequestState(e, at, key in originals);
      originals := originals + {key};
      requests := requests[at := state];
      if !historical {
        EnqueueLive(state, e);
      }
      OneStateAdded(at, state);
    }

    /** A fresh state object shows in the view as one more request. */
    twostate lemma OneStateAdded(at: nat, new state: RequestState)
      requires old(Valid()) && requests == old(requests)[at := state] && at !in old(requests)
      requires forall r :: r in old(requests) ==> unchanged(old(requests)[r])
      ensures AsView().requests == old(AsView()).requests[at := state.Value()]
    {
    }

    /** What a live request gets beyond a historical one: its provider and its queue. */
    method EnqueueLive(state: RequestState, e: Entry)
      requires Valid() && e.payload.InferRequest?
      requires state.requestSeq in requests && requests[state.requestSeq] == state
      modifies this`pending, this`controls, state
      ensures Valid()
      ensures var provider := ChosenProvider(cfg, e.payload);
              var code := RejectionCode(cfg, e.payload, state.duplicate, provider);
              && state.Value() == old(state.Value()).(provider := Some(provider),
                   body := if code.None? then Some(e.payload.body) else old(state.body))
              && pending == old(pending) + (if code.None? then [state.requestSeq] else [])
              && controls == old(controls) + (if code.None? then [] else [(state.requestSeq, code.value)])
    {
      var provider := if e.payload.provider.Some? then e.payload.provider.value else cfg.defaultProvider;
      state.provider := Some(provider);
      var code :=
        if state.duplicate then Some(DUPLICATE_REQUEST)
        else if e.payload.size > cfg.maxPayloadBytes then Some(PAYLOAD_TOO_LARGE)
        else if provider !in cfg.providers then Some(INVALID_REQUEST)
        else None;
      if code.None? {
        state.body := Some(e.payload.body);
        pending := pending + [state.requestSeq];
      } else {
        controls := controls + [(state.requestSeq, code.value)];
      }
    }

    /** The entry cancels a request whose provider operation is running. */
    static predicate CancelsRunning(v: View, e: Entry) {
      && e.payload.InferCancel? && e.payload.requestSeq in v.requests
      && var st := v.requests[e.payload.requestSeq];
      && st.channel == e.channel && st.streamId == e.payload.streamId
      && st.streaming && st.terminal.None? && st.operation
    }

    /** `_accept`: `ok` is false when it raises ProtocolError, and `abort` names the request
        whose provider operation it then aborts. */
    method Accept(e: Entry, at: nat, historical: bool) returns (ok: bool, abort: Option<nat>)
      requires Valid()
      modifies this`requests, this`originals, this`pending, this`controls, requests.Values
      ensures Valid() && fresh(requests.Values - old(requests.Values))
      ensures old(stopped) ==> ok && abort.None? && AsView() == old(AsView())
      ensures !old(stopped) ==>
                var next := WorkerView.Accept(old(AsView()), cfg, e, at, historical);
                ok == next.Some? && AsView() == if ok then next.value else old(AsView())
      ensures abort == if !old(stopped) && CancelsRunning(old(AsView()), e) then Some(RefSeq(e)) else None
    {
      ok, abort := true, None;
      if stopped {
        return;
      }
      if e.payload.InferRequest? {
        AcceptRequest(e, at, historical);
        return;
      }
      if e.payload.Foreign? {
        return;
      }
      var requestSeq := if e.payload.InferResult? then e.payload.prevSeq else e.payload.requestSeq;
      if requestSeq !in requests {
        return;
      }
      var state := requests[requestSeq];
      if state.channel != e.channel || state.streamId != e.payload.streamId || state.terminalSeq.Some? {
        return;
      }
      var terminal := false;
      if e.payload.InferResult? {
        if state.chainSeq.Some? {
          return;
        }
        if !state.streaming && e.payload.resultBody.None? {
          return false, None;
        }
        state.chainSeq := Some(at);
        terminal := e.payload.resultBody.Some?;
      } else if e.payload.InferAppend? {
        if !state.streaming || state.chainSeq.None? || e.payload.prevSeq != state.chainSeq.value {
          return false, None;
        }
        state.chainSeq := Some(at);
      } else if e.payload.InferEnd? {
        if !state.streaming {
          return;
        }
        terminal := true;
      } else {
        if !state.streaming {
          return;
        }
        terminal := true;
        abort := if state.operation then Some(requestSeq) else None;
      }
      if terminal {
        state.terminalSeq := Some(at);
        state.body := None;
      }
      OneStateChanged(state);
      if terminal {
        RetireLocked(state);
      }
    }

    // -------------------------------------------------------------- reading the log

    /** System messages are not handed to `_accept`. */
    method AcceptBusiness(message: Message, historical: bool) returns (ok: bool)
      requires Valid() && !stopped
      modifies this`requests, this`originals, this`pending, this`controls, requests.Values
      ensures Valid() && fresh(requests.Values - old(requests.Values))
      ensures var next := WorkerView.Accept(old(AsView()), cfg, message.entry, message.seqNo, historical);
              ok == next.Some? && AsView() == if ok then next.value else old(AsView())
    {
      ok := true;
      if !message.entry.payload.Foreign? {
        var accepted, _ := Accept(message.entry, message.seqNo, historical);
        ok := accepted;
      }
    }

    /** One message of the page. */
    method AcceptNext(page: Page, cursor: nat, target: nat, j: nat, ghost honest: bool, ghost log: Log)
      returns (ok: bool)
      requires Valid() && !stopped && j < |page.messages| && page.messages[j].seqNo <= target
      requires honest ==> Scanned(cfg, log, cursor, target, page, j, AsView())
      modifies this`requests, this`originals, this`pending, this`controls, requests.Values
      ensures Valid() && fresh(requests.Values - old(requests.Values))
      ensures honest && ok ==> Scanned(cfg, log, cursor, target, page, j + 1, AsView())
      ensures honest && !ok ==> target <= |log| && Fold(log[..target], cfg).None?
    {
      if honest {
        NextScanned(cfg, log, cursor, target, page, j, AsView());
      }
      ok := AcceptBusiness(page.messages[j], true);
    }

    /** One Fetch page of the scan: its messages up to `target`, from `cursor` on. */
    method AcceptPage(page: Page, cursor: nat, target: nat, last: nat, ghost log: Log)
      returns (outcome: ScanOutcome, previous: nat)
      requires Valid() && !stopped && 1 <= cursor <= target
      modifies this`requests, this`originals, this`pending, this`controls, requests.Values
      ensures Valid() && fresh(requests.Values - old(requests.Values))
      ensures outcome.Complete? || outcome.NotOrdered? || outcome.Raised?
      ensures target <= |log| && HonestPage(log, cursor, page) && last < cursor
              && Fold(log[..cursor - 1], cfg) == Some(old(AsView())) ==>
                && previous < page.nextSeq
                && match outcome
                   case Complete => Fold(log[..Min(page.nextSeq - 1, target)], cfg) == Some(AsView())
                   case Raised => Fold(log[..target], cfg).None?
                   case _ => false
    {
      ghost var honest := target <= |log| && HonestPage(log, cursor, page) && last < cursor
                          && Fold(log[..cursor - 1], cfg) == Some(AsView());
      previous := last;
      var j := 0;
      while j < |page.messages|
        invariant Valid() && fresh(requests.Values - old(requests.Values)) && !stopped
        invariant j <= |page.messages|
        invariant honest ==> previous <= Reached(cursor - 1, page.messages, j) < page.nextSeq
        invariant honest ==> Scanned(cfg, log, cursor, target, page, j, AsView())
      {
        var message := page.messages[j];
        if message.seqNo > target {
          break;
        }
        if message.seqNo < cursor || message.seqNo <= previous {
          return NotOrdered, previous;
        }
        previous := message.seqNo;
        var ok := AcceptNext(page, cursor, target, j, honest, log);
        if !ok {
          return Raised, previous;
        }
        j := j + 1;
      }
      if honest {
        PageScanned(cfg, log, cursor, target, page, j, AsView());
      }
      return ScanOutcome.Complete, previous;
    }

    /** The cursor after the first `i` pages. */
    static function PagesEnd(pages: seq<Page>, i: nat): nat
      requires i <= |pages|
    {
      if i == 0 then 1 else pages[i - 1].nextSeq
    }

    /** The history loop of `recover`. `pages` are the replies to its successive Fetch
        calls, which may be anything; when they are honest about `log`, the scan hands
        every message up to `target` to `_accept` once and in order. */
    method ScanHistory(target: nat, pages: seq<Page>, ghost log: Log) returns (outcome: ScanOutcome)
      requires Valid() && AsView() == EMPTY_VIEW && !stopped
      modifies this`requests, this`originals, this`pending, this`controls, requests.Values
      ensures Valid() && fresh(requests.Values - old(requests.Values))
      ensures target <= |log| && HonestPages(log, 1, pages) ==>
                match outcome
                case Complete => Fold(log[..target], cfg) == Some(AsView())
                case Raised => Fold(log[..target], cfg).None?
                case Unavailable => true
                case _ => false
      ensures outcome.Unavailable? ==> PagesEnd(pages, |pages|) <= target
      ensures outcome.NotAdvancing? ==> exists i: nat :: i < |pages| && pages[i].nextSeq <= PagesEnd(pages, i)
    {
      ghost var honest := target <= |log| && HonestPages(log, 1, pages);
      var cursor: nat, previous: nat, i: nat := 1, 0, 0;
      while cursor <= target
        invariant Valid() && fresh(requests.Values - old(requests.Values)) && !stopped
        invariant i <= |pages| && 1 <= cursor == PagesEnd(pages, i)
        invariant honest ==> target <= |log| && HonestPages(log, cursor, pages[i..]) && previous < cursor
        invariant honest ==> Fold(log[..Min(cursor - 1, target)], cfg) == Some(AsView())
        decreases target + 1 - cursor
      {
        if i == |pages| {
          return Unavailable;
        }
        var page := pages[i];
        i := i + 1;
        if page.nextSeq <= cursor {
          return NotAdvancing;
        }
        assert pages[i - 1..][0] == page && pages[i - 1..][1..] == pages[i..];
        outcome, previous := AcceptPage(page, cursor, target, previous, log);
        if !outcome.Complete? {
          return;
        }
        cursor := page.nextSeq;
      }
      return ScanOutcome.Complete;
    }

    /** One subscription of `run`, until it breaks off: replayed messages are skipped, and
        everything after `lastSeenSeq` is read once and in order. */
    method ReadStream(messages: seq<Message>, ghost log: Log) returns (ok: bool)
      requires Valid() && !stopped
      modifies this`requests, this`originals, this`pending, this`controls, this`lastSeenSeq, requests.Values
      ensures Valid() && fresh(requests.Values - old(requests.Values))
      ensures old(lastSeenSeq) <= lastSeenSeq
      ensures old(lastSeenSeq) <= |log| && HonestStream(log, old(lastSeenSeq), messages) ==>
                && lastSeenSeq <= |log|
                && (ok ==> LiveFold(old(AsView()), cfg, log, old(lastSeenSeq), lastSeenSeq) == Some(AsView())
                           && lastSeenSeq == Reached(old(lastSeenSeq), messages, |messages|))
                && (!ok ==> LiveFold(old(AsView()), cfg, log, old(lastSeenSeq), |log|).None?)
    {
      ghost var v0 := AsView();
      ghost var from := lastSeenSeq;
      ghost var honest := from <= |log| && HonestStream(log, from, messages);
      var j := 0;
      while j < |messages|
        invariant Valid() && fresh(requests.Values - old(requests.Values)) && !stopped
        invariant from <= lastSeenSeq && j <= |messages|
        invariant honest ==> Streamed(v0, cfg, log, from, messages, j, lastSeenSeq, AsView())
      {
        var message := messages[j];
        if message.seqNo <= lastSeenSeq {
          if honest {
            ReplaySkipped(v0, cfg, log, from, messages, j, lastSeenSeq, AsView());
          }
        } else {
          if honest {
            NewMessageRead(v0, cfg, log, from, messages, j, lastSeenSeq, AsView());
          }
          ok := ReadMessage(message);
          if !ok {
            return;
          }
        }
        j := j + 1;
      }
      return true;
    }

    /** One turn of the reconnect loop: a stream opened at `lastSeenSeq`. */
    method ReadNextStream(streams: seq<seq<Message>>, k: nat, ghost honest: bool, ghost log: Log, ghost from: nat,
                          ghost v0: View)
      returns (ok: bool)
      requires Valid() && !stopped && k < |streams|
      requires honest ==> StreamsRead(v0, cfg, log, from, streams, k, lastSeenSeq, AsView())
                          && HonestStream(log, ReachedAfter(from, streams, k), streams[k])
      modifies this`requests, this`originals, this`pending, this`controls, this`lastSeenSeq, requests.Values
      ensures Valid() && fresh(requests.Values - old(requests.Values))
      ensures honest && ok ==> StreamsRead(v0, cfg, log, from, streams, k + 1, lastSeenSeq, AsView())
      ensures honest && !ok ==>
                from <= lastSeenSeq <= |log| && LiveFold(v0, cfg, log, from, |log|).None?
    {
      ghost var mid, v := lastSeenSeq, AsView();
      ok := ReadStream(streams[k], log);
      if honest && ok {
        NextStreamRead(v0, cfg, log, from, streams, k, mid, v, lastSeenSeq, AsView());
      } else if honest {
        StreamFailed(v0, cfg, log, from, streams, k, mid, v);
      }
    }

    /** The reconnect loop of `run`: every stream is opened at `lastSeenSeq` and breaks off
        somewhere, while the log grows. However often and wherever that happens, everything
        after the first cursor is read once and in order. */
    method ReadStreams(streams: seq<seq<Message>>, ghost logs: seq<Log>, ghost log: Log) returns (ok: bool)
      requires Valid() && !stopped
      modifies this`requests, this`originals, this`pending, this`controls, this`lastSeenSeq, requests.Values
      ensures Valid() && fresh(requests.Values - old(requests.Values))
      ensures HonestStreams(logs, log, old(lastSeenSeq), streams) ==>
                if ok then StreamsRead(old(AsView()), cfg, log, old(lastSeenSeq), streams, |streams|, lastSeenSeq, AsView())
                else lastSeenSeq <= |log| && LiveFold(old(AsView()), cfg, log, old(lastSeenSeq), |log|).None?
    {
      ghost var v0, from := AsView(), lastSeenSeq;
      ghost var honest := HonestStreams(logs, log, from, streams);
      var k := 0;
      while k < |streams|
        invariant Valid() && fresh(requests.Values - old(requests.Values)) && !stopped
        invariant k <= |streams|
        invariant honest ==> StreamsRead(v0, cfg, log, from, streams, k, lastSeenSeq, AsView())
      {
        if honest {
          NextStreamIsHonest(logs, log, from, streams, k);
        }
        ok := ReadNextStream(streams, k, honest, log, from, v0);
        if !ok {
          return;
        }
        k := k + 1;
      }
      return true;
    }

    /** System messages move the cursor like any other. */
    method ReadMessage(message: Message) returns (ok: bool)
      requires Valid() && !stopped
      modifies this`requests, this`originals, this`pending, this`controls, this`lastSeenSeq, requests.Values
      ensures Valid() && fresh(requests.Values - old(requests.Values))
      ensures var next := WorkerView.Accept(old(AsView()), cfg, message.entry, message.seqNo, false);
              ok == next.Some? && AsView() == if ok then next.value else old(AsView())
      ensures lastSeenSeq == if ok then message.seqNo else old(lastSeenSeq)
    {
      ok := AcceptBusiness(message, false);
      if ok {
        lastSeenSeq := message.seqNo;
      }
    }

    /** The requests `recover` publishes a terminal for, in seq order. */
    method Unfinished() returns (todo: seq<nat>)
      requires Valid()
      ensures forall r :: r in todo <==> r in requests && AsView().requests[r].terminal.None?
      ensures forall i, j :: 0 <= i < j < |todo| ==> todo[i] < todo[j]
    {
      var rest := set r | r in requests && requests[r].terminalSeq.None?;
      todo := Sorted(rest);
      assert forall r :: r in rest <==> r in requests && AsView().requests[r].terminal.None?;
    }

    /** Recovery is through with one request. */
    method MarkDone(state: RequestState)
      requires Valid() && state.requestSeq in requests && requests[state.requestSeq] == state
      modifies state`phase
      ensures Valid() && AsView() == SetPhase(old(AsView()), state.requestSeq, Done)
    {
      state.phase := Done;
      OneStateChanged(state);
    }

    /** Recovery has read and settled the snapshot. */
    method ReadUpTo(target: nat)
      requires Valid()
      modifies this`lastSeenSeq
      ensures Valid() && lastSeenSeq == target && AsView() == old(AsView())
    {
      lastSeenSeq := target;
    }

    // -------------------------------------------------------------- tasks

    /** One turn of `_schedule`: the state whose provider task is started, if any. */
    method ScheduleNext() returns (task: RequestState?)
      requires Valid() && pending != [] && running < cfg.maxConcurrency
      modifies this`pending, this`running, requests.Values
      ensures Valid() && requests == old(requests) && AsView() == TakePending(old(AsView()))
      ensures task == if old(pending)[0] in requests then requests[old(pending)[0]] else null
      ensures running <= cfg.maxConcurrency
    {
      var r := pending[0];
      pending := pending[1..];
      if r !in requests {
        return null;
      }
      task := requests[r];
      task.phase := Running;
      running := running + 1;
    }

    /** The first critical section of one turn of `_control_outputs`. */
    method TakeControl() returns (task: RequestState?, code: int)
      requires Valid() && controls != []
      modifies this`controls, requests.Values
      ensures Valid() && requests == old(requests) && AsView() == WorkerView.TakeControl(old(AsView()))
      ensures code == old(controls)[0].1
      ensures task == if old(controls)[0].0 in requests then requests[old(controls)[0].0] else null
    {
      var r := controls[0].0;
      code := controls[0].1;
      controls := controls[1..];
      if r !in requests {
        return null, code;
      }
      task := requests[r];
      task.phase := Running;
    }

    /** Its last critical section. */
    method FinishControl(state: RequestState)
      requires Valid() && state.requestSeq in requests && requests[state.requestSeq] == state
      modifies this`requests, state`phase
      ensures Valid() && AsView() == WorkerView.FinishControl(old(AsView()), state.requestSeq)
    {
      state.phase := Done;
      OneStateChanged(state);
      RetireLocked(state);
    }

    /** `_provider_task` takes the request body and installs its operation. */
    method BeginCall(state: RequestState) returns (body: Option<Json>)
      requires Valid() && state.requestSeq in requests && requests[state.requestSeq] == state
      modifies state
      ensures Valid() && AsView() == WorkerView.BeginCall(old(AsView()), state.requestSeq)
      ensures body == old(state.body)
    {
      body := state.body;
      state.body := None;
      state.operation := true;
    }

    /** The `finally` block of `_provider_task`. */
    method FinishTask(state: RequestState)
      requires Valid() && state.requestSeq in requests && requests[state.requestSeq] == state
      requires running > 0
      modifies this`requests, this`running, state
      ensures Valid() && AsView() == Release(old(AsView()), state.requestSeq)
    {
      state.operation := false;
      state.body := None;
      state.phase := Done;
      running := running - 1;
      OneStateChanged(state);
      RetireLocked(state);
    }

    /** The critical section of `stop`: request bodies are dropped and the operations to
        abort are collected. */
    method Stop() returns (operations: set<nat>)
      requires Valid()
      modifies this`stopped, requests.Values
      ensures Valid() && stopped && requests == old(requests)
      ensures operations == set r | r in requests && requests[r].operation
      ensures forall r :: r in requests ==> requests[r].Value() == WithoutBody(old(requests[r].Value()))
    {
      stopped := true;
      operations := set r | r in requests && requests[r].operation;
      forall state | state in requests.Values {
        state.body := None;
      }
    }

    static function WithoutBody(st: State): State {
      st.(body := None)
    }
  }

  /** The entry is a cancel, and with it its request becomes terminal. */
  ghost predicate CancelEnds(v: View, cfg: Config, e: Entry, at: nat, historical: bool) {
    && e.payload.InferCancel? && e.payload.requestSeq in v.requests && v.requests[e.payload.requestSeq].terminal.None?
    && var next := WorkerView.Accept(v, cfg, e, at, historical);
    && next.Some?
    && (e.payload.requestSeq in next.value.requests ==> next.value.requests[e.payload.requestSeq].terminal == Some(at))
  }

  /** An entry aborts a provider operation exactly when it is the cancel that ends a request
      whose operation is running. */
  lemma AbortsWhatItEnds(v: View, cfg: Config, e: Entry, at: nat, historical: bool)
    ensures Worker.CancelsRunning(v, e) <==> CancelEnds(v, cfg, e, at, historical) && v.requests[RefSeq(e)].operation
  {
  }
}
