/** What holds of every run: any members, any interleaving, any late commits, and any
    number of crashes and restarts. */
module SystemTheorems {
  import opened Protocol
  import opened Progress
  import opened WorkerView
  import opened ProviderEvents
  import opened System
  import opened SystemInvariant
  import opened SystemLogProof
  import opened SystemWorkerProof
  import opened SystemPublishProof

  predicate Shared(a: Action) {
    a.MemberPublish? || a.Commit? || a.Boot? || a.Scan? || a.Plan? || a.RecoverNext? || a.Serve?
  }

  predicate ByPublisher(a: Action) {
    a.Yield? || a.Fail? || a.Reject? || a.Send? || a.Return? || a.Quit?
  }

  lemma SharedStepKeepsInv(s: Sys, a: Action, s': Sys, cfg: Config)
    requires Inv(s, cfg) && Next(s, a, s', cfg)
    requires Shared(a)
    ensures Inv(s', cfg)
  {
    match a
    case MemberPublish(e) => MemberPublishKeepsInv(s, s', e, cfg);
    case Commit(e) => CommitKeepsInv(s, s', e, cfg);
    case Boot => BootKeepsInv(s, s', cfg);
    case Scan => ScanKeepsInv(s, s', cfg);
    case Plan(todo) => PlanKeepsInv(s, s', todo, cfg);
    case RecoverNext => RecoverNextKeepsInv(s, s', cfg);
    case Serve => ServeKeepsInv(s, s', cfg);
  }

  lemma ServingStepKeepsInv(s: Sys, a: Action, s': Sys, cfg: Config)
    requires Inv(s, cfg) && Next(s, a, s', cfg)
    requires !Shared(a) && !ByPublisher(a)
    ensures Inv(s', cfg)
  {
    match a
    case Read => ReadKeepsInv(s, s', cfg);
    case Schedule => ScheduleKeepsInv(s, s', cfg);
    case PickControl => PickControlKeepsInv(s, s', cfg);
    case StartCall(r) => StartCallKeepsInv(s, s', r, cfg);
    case Stop => StopKeepsInv(s, s', cfg);
    case Crash => CrashKeepsInv(s, s', cfg);
  }

  lemma PublishingStepKeepsInv(s: Sys, a: Action, s': Sys, cfg: Config)
    requires Inv(s, cfg) && Next(s, a, s', cfg)
    requires ByPublisher(a)
    ensures Inv(s', cfg)
  {
    match a
    case Yield(r, event) => YieldKeepsInv(s, s', r, event, cfg);
    case Fail(r, code, dropped) => FailKeepsInv(s, s', r, code, dropped, cfg);
    case Reject(r) => RejectKeepsInv(s, s', r, cfg);
    case Send(r) => SendKeepsInv(s, s', r, cfg);
    case Return(r, q) => ReturnKeepsInv(s, s', r, q, cfg);
    case Quit(r) => QuitKeepsInv(s, s', r, cfg);
  }

  /** Every action keeps the invariant. */
  lemma StepKeepsInv(s: Sys, a: Action, s': Sys, cfg: Config)
    requires Inv(s, cfg) && Next(s, a, s', cfg)
    ensures Inv(s', cfg)
  {
    if Shared(a) {
      SharedStepKeepsInv(s, a, s', cfg);
    } else if ByPublisher(a) {
      PublishingStepKeepsInv(s, a, s', cfg);
    } else {
      ServingStepKeepsInv(s, a, s', cfg);
    }
  }

  lemma {:induction false} RunKeepsInv(states: seq<Sys>, actions: seq<Action>, cfg: Config, i: nat)
    requires Run(states, actions, cfg) && i < |states|
    ensures Inv(states[i], cfg)
  {
    if i > 0 {
      RunKeepsInv(states, actions, cfg, i - 1);
      assert StepAt(states, actions, cfg, i - 1);
      StepKeepsInv(states[i - 1], actions[i - 1], states[i], cfg);
    }
  }

  // ---------------------------------------------------------------- no reader ever faults

  /** In every reachable state no request of the log is faulted, so no reader that starts
      at the request, on whatever prefix of the log, has a protocol error to report. */
  lemma NoRequestFaults(states: seq<Sys>, actions: seq<Action>, cfg: Config, i: nat, r: nat)
    requires Run(states, actions, cfg) && i < |states| && IsRequest(states[i].log, r)
    ensures Track(states[i].log, r).Progress?
    ensures forall t: nat :: !FirstFault(states[i].log, r, t)
  {
    RunKeepsInv(states, actions, cfg, i);
    assert Sound(states[i], r);
    FaultIsFirstMalformed(states[i].log, r);
  }

  /** No incarnation, recovering or live, raises ProtocolError on the entry it reads next. */
  lemma WorkerNeverRaises(states: seq<Sys>, actions: seq<Action>, cfg: Config, i: nat, historical: bool)
    requires Run(states, actions, cfg) && i < |states|
    requires states[i].worker.Up? && states[i].worker.cursor < |states[i].log|
    ensures Accept(states[i].worker.view, cfg, states[i].log[states[i].worker.cursor],
                   states[i].worker.cursor + 1, historical).Some?
  {
    RunKeepsInv(states, actions, cfg, i);
    var s := states[i];
    var seen, e := s.log[..s.worker.cursor], s.log[s.worker.cursor];
    AcceptFailsOnlyOnFault(s.worker.view, cfg, seen, e, historical);
    if IsReply(e) && IsRequest(seen, RefSeq(e)) {
      SeenStep(s);
      assert At(s.log, RefSeq(e)) == At(seen, RefSeq(e));
      TrackStable(seen + [e], s.log, RefSeq(e));
      assert Sound(s, RefSeq(e));
    }
  }

  /** Before the terminal of its request, an output in the log is the one bodyless result,
      or an append that names the latest node of the chain as its predecessor. */
  ghost predicate WellChained(log: Log, r: nat, t: nat)
    requires IsRequest(log, r) && r < t <= |log|
  {
    var e := At(log, t);
    && Matches(At(log, r), r, e) && At(log, r).payload.streaming
    && match e.payload
       case InferResult(_, _, _, body) => body.None? && forall u :: r < u < t ==> !ResultAt(log, r, u)
       case InferAppend(_, _, prev, _) => r < prev && Precedes(log, r, prev, t)
       case _ => false
  }

  lemma OutputsAreWellChained(states: seq<Sys>, actions: seq<Action>, cfg: Config, i: nat, r: nat, t: nat)
    requires Run(states, actions, cfg) && i < |states| && IsRequest(states[i].log, r)
    requires r < t <= |states[i].log|
    requires IsOutput(At(states[i].log, t)) && RefSeq(At(states[i].log, t)) == r
    requires forall w: nat :: w <= t ==> !Wins(states[i].log, r, w)
    ensures WellChained(states[i].log, r, t)
  {
    var s := states[i];
    RunKeepsInv(states, actions, cfg, i);
    assert Sound(s, r);
    TrackExplained(s.log, r);
    var e := At(s.log, t);
    assert e in s.log && e in s.sent && RefOf(e) == r && ShapeOk(s, r, e);
    assert !Candidate(s.log, r, t) by {
      if Candidate(s.log, r, t) {
        FirstCandidate(s.log, r, t);
      }
    }
    assert !Malformed(s.log, r, t);
    if e.payload.InferResult? {
      FirstResult(s, r, t);
    }
  }

  lemma {:induction false} FirstCandidate(log: Log, r: nat, t: nat)
    requires IsRequest(log, r) && Candidate(log, r, t)
    ensures exists w: nat :: w <= t && Wins(log, r, w)
    decreases t
  {
    if !Wins(log, r, t) {
      var u: nat :| r < u < t && Candidate(log, r, u);
      FirstCandidate(log, r, u);
    }
  }

  /** Beside a bodyless result of a request there is no other result. */
  lemma HeadIsOnlyResult(s: Sys, r: nat, u: nat, t: nat)
    requires UniqueLog(s) && IsRequest(s.log, r) && Sound(s, r)
    requires ResultAt(s.log, r, u) && IsHead(At(s.log, u)) && ResultAt(s.log, r, t)
    ensures u == t
  {
    var e, f := At(s.log, u), At(s.log, t);
    assert e in s.log && f in s.log && ShapeOk(s, r, e) && ShapeOk(s, r, f);
    assert e == f;
    assert s.log[u - 1].uuid == s.log[t - 1].uuid;
  }

  /** A result that is no candidate is the bodyless head, and it is the first result. */
  lemma FirstResult(s: Sys, r: nat, t: nat)
    requires UniqueLog(s) && IsRequest(s.log, r) && Sound(s, r) && ResultAt(s.log, r, t)
    requires forall u :: r < u <= t ==> !Candidate(s.log, r, u)
    ensures At(s.log, t).payload.resultBody.None?
    ensures forall u :: r < u < t ==> !ResultAt(s.log, r, u)
    decreases t
  {
    var e := At(s.log, t);
    assert e in s.log && ShapeOk(s, r, e);
    assert !Candidate(s.log, r, t);
    forall u | r < u < t ensures !ResultAt(s.log, r, u) {
      if ResultAt(s.log, r, u) {
        FirstResult(s, r, u);
        HeadIsOnlyResult(s, r, u, t);
      }
    }
  }

  // ---------------------------------------------------------------- at most one provider call

  /** Over all incarnations, one channel and stream id has at most one provider call. */
  lemma OneCallPerStream(states: seq<Sys>, actions: seq<Action>, cfg: Config, i: nat, j: nat, k: nat)
    requires Run(states, actions, cfg) && i < |states| && j < k < |states[i].calls|
    ensures IsRequest(states[i].log, states[i].calls[j]) && IsRequest(states[i].log, states[i].calls[k])
    ensures Key(At(states[i].log, states[i].calls[j])) != Key(At(states[i].log, states[i].calls[k]))
  {
    RunKeepsInv(states, actions, cfg, i);
    var s := states[i];
    var a, b := s.calls[j], s.calls[k];
    assert a in s.calls && b in s.calls;
  }

  /** A call is started only for the first request with its channel and stream id, only
      once, and only for a request after the snapshot its incarnation recovered to. */
  lemma CallsAreForNewOriginals(states: seq<Sys>, actions: seq<Action>, cfg: Config, i: nat, r: nat)
    requires Run(states, actions, cfg) && i < |actions| && actions[i] == StartCall(r)
    ensures IsRequest(states[i].log, r) && Original(states[i].log, r)
    ensures states[i].worker.Up? && states[i].worker.mode.Serving?
    ensures r !in states[i].calls && r > states[i].worker.target
  {
    RunKeepsInv(states, actions, cfg, i);
    assert StepAt(states, actions, cfg, i);
    assert PublisherInv(states[i], r);
  }

  /** Every incarnation classifies a request as the log does. */
  lemma DuplicatesAreStable(states: seq<Sys>, actions: seq<Action>, cfg: Config, i: nat, r: nat)
    requires Run(states, actions, cfg) && i < |states| && states[i].worker.Up?
    requires r in states[i].worker.view.requests
    ensures IsRequest(states[i].log, r)
    ensures states[i].worker.view.requests[r].duplicate == !Original(states[i].log, r)
  {
    RunKeepsInv(states, actions, cfg, i);
    ViewOf(states[i], r);
  }

  // ---------------------------------------------------------------- recovery

  /** Once an incarnation serves, every request of its snapshot has its winning terminal. */
  lemma RecoveryDecidesSnapshot(states: seq<Sys>, actions: seq<Action>, cfg: Config, i: nat, r: nat)
    requires Run(states, actions, cfg) && i < |states|
    requires states[i].worker.Up? && states[i].worker.mode.Serving?
    requires IsRequest(states[i].log, r) && r <= states[i].worker.target
    ensures exists w: nat :: Wins(states[i].log, r, w)
  {
    RunKeepsInv(states, actions, cfg, i);
    assert Decided(states[i], r);
    TerminalIsEarliestCandidate(states[i].log, r);
  }

  /** The output recovery chooses is one that every reader takes for the terminal, when it is
      committed before any other. For a streaming duplicate that takes that no chain was
      begun, and none ever is. */
  lemma RecoveryOutputIsTerminal(log: Log, r: nat, st: State, e: Entry)
    requires IsRequest(log, r) && StateOf(log, r, st) && Track(log, r) == Progress(st.chain, None)
    requires e.channel == st.channel && e.payload == ErrorPayload(st, MODEL_PROXY_INTERRUPTED, true, false)
    ensures IsRequest(log + [e], r)
    ensures Track(log + [e], r).Progress?
    ensures Track(log + [e], r).terminal == Some(|log| + 1) <==> !(st.streaming && st.duplicate && st.chain.Some?)
  {
    TrackStep(log, r, e);
    if !st.streaming {
      OrdinaryChainEnds(log, r);
    }
  }

  /** An ordinary request's chain is its terminal result. */
  lemma {:induction false} OrdinaryChainEnds(log: Log, r: nat)
    requires IsRequest(log, r) && !At(log, r).payload.streaming
    ensures Track(log, r).Progress? ==> Track(log, r).chain == Track(log, r).terminal
    decreases |log|
  {
    if |log| > r {
      assert log == log[..|log| - 1] + [log[|log| - 1]];
      OrdinaryChainEnds(log[..|log| - 1], r);
    }
  }

  /** Duplicates never get a chain: no incarnation calls a provider for them. */
  lemma DuplicatesHaveNoChain(states: seq<Sys>, actions: seq<Action>, cfg: Config, i: nat, r: nat)
    requires Run(states, actions, cfg) && i < |states| && IsRequest(states[i].log, r)
    requires !Original(states[i].log, r)
    ensures Track(states[i].log, r).Progress?
    ensures Track(states[i].log, r).terminal.None? ==> Track(states[i].log, r).chain.None?
  {
    RunKeepsInv(states, actions, cfg, i);
    assert Sound(states[i], r);
  }

  lemma StepGrowsLog(s: Sys, a: Action, s': Sys, cfg: Config)
    requires Next(s, a, s', cfg)
    ensures s.log <= s'.log
  {
  }

  lemma LogGrowsAt(states: seq<Sys>, actions: seq<Action>, cfg: Config, i: nat)
    requires Run(states, actions, cfg) && i < |actions|
    ensures states[i].log <= states[i + 1].log
  {
    assert StepAt(states, actions, cfg, i);
    StepGrowsLog(states[i], actions[i], states[i + 1], cfg);
  }

  lemma PrefixTransitive(a: Log, b: Log, c: Log)
    requires a <= b <= c
    ensures a <= c
  {
  }

  lemma {:induction false} LogGrows(states: seq<Sys>, actions: seq<Action>, cfg: Config, i: nat, j: nat)
    requires Run(states, actions, cfg) && i <= j < |states|
    ensures states[i].log <= states[j].log
    decreases j
  {
    if i < j {
      LogGrows(states, actions, cfg, i, j - 1);
      LogGrowsAt(states, actions, cfg, j - 1);
      PrefixTransitive(states[i].log, states[j - 1].log, states[j].log);
    }
  }

  /** There is at most one winning terminal, and whatever happens later, crashes and
      further recoveries included, it stays the same. */
  lemma TerminalIsFinal(states: seq<Sys>, actions: seq<Action>, cfg: Config, i: nat, j: nat, r: nat, w: nat, u: nat)
    requires Run(states, actions, cfg) && i <= j < |states| && IsRequest(states[i].log, r)
    requires Wins(states[i].log, r, w)
    ensures IsRequest(states[j].log, r)
    ensures Wins(states[j].log, r, u) <==> u == w
  {
    LogGrows(states, actions, cfg, i, j);
    TrackStable(states[i].log, states[j].log, r);
    NoRequestFaults(states, actions, cfg, i, r);
    TerminalIsEarliestCandidate(states[i].log, r);
    TerminalIsEarliestCandidate(states[j].log, r);
  }

  // ---------------------------------------------------------------- scheduling

  /** `running` counts the claimed provider slots and stays within the bound. */
  lemma RunningCountsSlots(states: seq<Sys>, actions: seq<Action>, cfg: Config, i: nat)
    requires Run(states, actions, cfg) && i < |states| && states[i].worker.Up?
    ensures states[i].worker.view.running == |Slots(states[i].worker)| <= cfg.maxConcurrency
  {
    RunKeepsInv(states, actions, cfg, i);
  }

  /** A request waits at most once, in one queue, and not while something publishes for it. */
  lemma QueuedOnce(states: seq<Sys>, actions: seq<Action>, cfg: Config, i: nat, j: nat, k: nat)
    requires Run(states, actions, cfg) && i < |states| && states[i].worker.Up?
    ensures var v, publishers := states[i].worker.view, states[i].worker.publishers;
            && (j < |v.pending| && k < |v.pending| && v.pending[j] == v.pending[k] ==> j == k)
            && (j < |v.controls| && k < |v.controls| && v.controls[j].0 == v.controls[k].0 ==> j == k)
            && (j < |v.controls| ==> v.controls[j].0 !in v.pending && v.controls[j].0 !in publishers)
            && (j < |v.pending| ==> v.pending[j] !in publishers)
  {
    RunKeepsInv(states, actions, cfg, i);
    var v := states[i].worker.view;
    assert j < |v.pending| ==> v.pending[j] in v.pending;
  }

  /** The incarnation has taken every request up to `x` off its queue. */
  ghost predicate PendingAbove(s: Sys, x: nat) {
    s.worker.Up? ==>
      s.worker.mode.Serving? && x <= s.worker.cursor && forall r :: r in s.worker.view.pending ==> r > x
  }

  lemma StepKeepsPendingAbove(s: Sys, a: Action, s': Sys, cfg: Config, x: nat)
    requires Next(s, a, s', cfg) && !a.Boot? && PendingAbove(s, x)
    ensures PendingAbove(s', x)
  {
    match a
    case Read =>
      if s'.worker.Up? {
        AcceptKeepsPendingAbove(s.worker.view, cfg, s.log[s.worker.cursor], s.worker.cursor + 1);
      }
    case Schedule =>
      ScheduleKeepsPendingAbove(s, s', cfg, x);
    case Return(r, q) => FinishFrame(s.worker, r);
    case Quit(r) => FinishFrame(s.worker, r);
    case _ =>
  }

  lemma ScheduleKeepsPendingAbove(s: Sys, s': Sys, cfg: Config, x: nat)
    requires Schedules(s, s', cfg) && PendingAbove(s, x)
    ensures PendingAbove(s', x)
  {
    assert forall r :: r in s.worker.view.pending[1..] ==> r in s.worker.view.pending;
  }

  lemma AcceptKeepsPendingAbove(v: View, cfg: Config, e: Entry, at: nat)
    requires Accept(v, cfg, e, at, false).Some?
    ensures forall r :: r in Accept(v, cfg, e, at, false).value.pending ==> r in v.pending || r == at
  {
  }

  lemma {:induction false} RunKeepsPendingAbove(
    states: seq<Sys>, actions: seq<Action>, cfg: Config, i: nat, j: nat, x: nat)
    requires Run(states, actions, cfg) && i <= j < |states| && PendingAbove(states[i], x)
    requires forall k :: i <= k < j ==> !actions[k].Boot?
    ensures PendingAbove(states[j], x)
    decreases j
  {
    if i < j {
      RunKeepsPendingAbove(states, actions, cfg, i, j - 1, x);
      assert StepAt(states, actions, cfg, j - 1);
      StepKeepsPendingAbove(states[j - 1], actions[j - 1], states[j], cfg, x);
    }
  }

  /** Within one incarnation, waiting requests are taken for provider tasks in log order. */
  lemma TasksStartInLogOrder(states: seq<Sys>, actions: seq<Action>, cfg: Config, i: nat, j: nat)
    requires Run(states, actions, cfg) && i < j < |actions|
    requires actions[i].Schedule? && actions[j].Schedule?
    requires forall k :: i < k < j ==> !actions[k].Boot?
    ensures states[i].worker.Up? && states[i].worker.view.pending != []
    ensures states[j].worker.Up? && states[j].worker.view.pending != []
    ensures states[i].worker.view.pending[0] < states[j].worker.view.pending[0]
  {
    RunKeepsInv(states, actions, cfg, i);
    assert StepAt(states, actions, cfg, i);
    assert StepAt(states, actions, cfg, j);
    ScheduleTakesFirst(states[i], states[i + 1], cfg);
    RunKeepsPendingAbove(states, actions, cfg, i + 1, j, states[i].worker.view.pending[0]);
    assert states[j].worker.view.pending[0] in states[j].worker.view.pending;
  }

  lemma ScheduleTakesFirst(s: Sys, s': Sys, cfg: Config)
    requires Schedules(s, s', cfg) && PendingInv(s)
    ensures PendingAbove(s', s.worker.view.pending[0])
  {
    var pending := s.worker.view.pending;
    assert pending[0] in pending;
    forall r | r in pending[1..] ensures r > pending[0] {
      var k :| 0 <= k < |pending[1..]| && pending[1..][k] == r;
      assert pending[k + 1] == r;
    }
  }

  // ---------------------------------------------------------------- output after the terminal

  /** The incarnation has read `r` and its terminal. */
  ghost predicate Observed(s: Sys, r: nat)
    requires s.worker.Up?
  {
    && s.worker.mode.Serving? && IsRequest(s.log, r) && r <= s.worker.cursor
    && (r in s.worker.view.requests ==> s.worker.view.requests[r].terminal.Some?)
  }

  /** Nothing is frozen for `r`, and nothing will be. */
  ghost predicate Silenced(s: Sys, r: nat) {
    s.worker.Up? ==> Observed(s, r)
                     && (r in s.worker.publishers ==> !s.worker.publishers[r].out.Ready?)
  }

  lemma SilencedBySend(s: Sys, s': Sys, r: nat)
    requires Sends(s, s', r) && Observed(s, r)
    ensures Silenced(s', r)
  {
  }

  lemma StepKeepsSilence(s: Sys, a: Action, s': Sys, cfg: Config, r: nat)
    requires Next(s, a, s', cfg) && !a.Boot? && Silenced(s, r)
    ensures Silenced(s', r) && a != Send(r)
  {
    if a.MemberPublish? || a.Commit? {
      if s.worker.Up? {
        assert At(s'.log, r) == At(s.log, r);
      }
    } else if s.worker.Up? && s'.worker.Up? {
      if ByPublisher(a) {
        PublisherKeepsSilence(s, a, s', cfg, r);
      } else {
        WorkerKeepsSilence(s, a, s', cfg, r);
      }
    }
  }

  lemma PublisherKeepsSilence(s: Sys, a: Action, s': Sys, cfg: Config, r: nat)
    requires Next(s, a, s', cfg) && ByPublisher(a) && Silenced(s, r) && s.worker.Up? && s'.worker.Up?
    ensures Silenced(s', r) && a != Send(r)
  {
    match a
    case Return(q, _) => FinishKeepsTerminals(s.worker, q, r);
    case Quit(q) => FinishKeepsTerminals(s.worker, q, r);
    case _ =>
  }

  lemma WorkerKeepsSilence(s: Sys, a: Action, s': Sys, cfg: Config, r: nat)
    requires Next(s, a, s', cfg) && !ByPublisher(a) && !a.MemberPublish? && !a.Commit? && !a.Boot?
    requires Silenced(s, r) && s.worker.Up? && s'.worker.Up?
    ensures Silenced(s', r)
  {
    match a
    case Read => AcceptKeepsTerminal(s.worker.view, cfg, s.log[s.worker.cursor], s.worker.cursor + 1, r);
    case Schedule => ScheduleKeepsSilence(s, s', cfg, r);
    case PickControl => PickControlKeepsSilence(s, s', r);
    case _ =>
  }

  lemma ScheduleKeepsSilence(s: Sys, s': Sys, cfg: Config, r: nat)
    requires Schedules(s, s', cfg) && Silenced(s, r)
    ensures Silenced(s', r)
  {
  }

  lemma PickControlKeepsSilence(s: Sys, s': Sys, r: nat)
    requires PicksControl(s, s') && Silenced(s, r)
    ensures Silenced(s', r)
  {
  }

  lemma AcceptKeepsTerminal(v: View, cfg: Config, e: Entry, at: nat, r: nat)
    requires Accept(v, cfg, e, at, false).Some? && r < at
    requires r in v.requests ==> v.requests[r].terminal.Some?
    ensures var next := Accept(v, cfg, e, at, false).value;
            r in next.requests ==> next.requests[r].terminal.Some?
  {
  }

  lemma FinishKeepsTerminals(w: Worker, q: nat, r: nat)
    requires w.Up? && q in w.publishers && (r in w.view.requests ==> w.view.requests[r].terminal.Some?)
    ensures var next := Finish(w, q);
            && next.Up? && next.mode == w.mode && next.cursor == w.cursor
            && next.publishers == w.publishers - {q}
            && (r in next.view.requests ==> next.view.requests[r].terminal.Some?)
  {
  }

  lemma {:induction false} RunKeepsSilence(states: seq<Sys>, actions: seq<Action>, cfg: Config, i: nat, j: nat, r: nat)
    requires Run(states, actions, cfg) && i <= j < |states| && Silenced(states[i], r)
    requires forall k :: i <= k < j ==> !actions[k].Boot?
    ensures Silenced(states[j], r)
    decreases j
  {
    if i < j {
      RunKeepsSilence(states, actions, cfg, i, j - 1, r);
      assert StepAt(states, actions, cfg, j - 1);
      StepKeepsSilence(states[j - 1], actions[j - 1], states[j], cfg, r);
    }
  }

  /** Once an incarnation has read the terminal of a request, it starts to publish at most
      one more event for it: the one that had passed the last check by then. */
  lemma AtMostOneSendAfterTerminal(states: seq<Sys>, actions: seq<Action>, cfg: Config, i: nat, j: nat, r: nat)
    requires Run(states, actions, cfg) && i < j < |actions|
    requires states[i].worker.Up? && Observed(states[i], r)
    requires actions[i] == Send(r) && forall k :: i < k < j ==> !actions[k].Boot?
    ensures actions[j] != Send(r)
  {
    assert StepAt(states, actions, cfg, i);
    SilencedBySend(states[i], states[i + 1], r);
    RunKeepsSilence(states, actions, cfg, i + 1, j, r);
    assert StepAt(states, actions, cfg, j);
  }
}
