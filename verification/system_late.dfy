/** What can still reach the log for a request after its terminal was read: at most one
    output of each incarnation, attempts in flight included. */
module SystemLate {
  import opened Protocol
  import opened WorkerView
  import opened ProviderEvents
  import opened System
  import opened SystemInvariant
  import opened SystemWorkerProof
  import opened SystemPublishProof
  import opened SystemTheorems

  /** An attempt of the incarnation that booted when `base` had been sent, for `r`, which
      the server has not committed. */
  ghost predicate Owed(s: Sys, base: set<Entry>, r: nat, e: Entry) {
    Outstanding(s, r, e) && e !in base
  }

  ghost predicate NothingOwed(s: Sys, base: set<Entry>, r: nat) {
    forall e :: !Owed(s, base, r, e)
  }

  /** Something may still be started for `r`. */
  ghost predicate Waiting(s: Sys, r: nat)
    requires s.worker.Up?
  {
    match s.worker.mode
    case Scanning => true
    case Recovering(todo) => r in todo
    case Serving => r in s.worker.view.pending || InControls(s.worker.view, r)
  }

  ghost predicate InControls(v: View, r: nat) {
    exists i :: 0 <= i < |v.controls| && v.controls[i].0 == r
  }

  /** The incarnation has at most one attempt outstanding for `r`: the one its publisher is
      waiting for, or gave up. */
  ghost predicate OneOwed(s: Sys, base: set<Entry>, r: nat) {
    && (forall e, f :: Owed(s, base, r, e) && Owed(s, base, r, f) ==> e == f)
    && (s.worker.Up? ==>
          if r in s.worker.publishers then
            match s.worker.publishers[r].out
            case Sent(e) => forall f :: Owed(s, base, r, f) ==> f == e
            case _ => NothingOwed(s, base, r)
          else Waiting(s, r) ==> NothingOwed(s, base, r))
  }

  lemma OwedBefore(s: Sys, s': Sys, base: set<Entry>, r: nat)
    requires s'.sent == s.sent && s.log <= s'.log
    ensures forall e :: Owed(s', base, r, e) ==> Owed(s, base, r, e)
  {
  }

  // ---------------------------------------------------------------- every step keeps it

  /** The publisher of `r` and what waits for it are as before, or less. */
  ghost predicate NoNewWork(s: Sys, s': Sys, r: nat) {
    s'.worker.Up? ==>
      && s.worker.Up?
      && (r in s'.worker.publishers ==>
            r in s.worker.publishers && s'.worker.publishers[r].out == s.worker.publishers[r].out)
      && (r !in s'.worker.publishers && Waiting(s', r) ==> r !in s.worker.publishers && Waiting(s, r))
  }

  lemma NoNewWorkKeeps(s: Sys, s': Sys, base: set<Entry>, r: nat)
    requires OneOwed(s, base, r) && NoNewWork(s, s', r) && s'.sent == s.sent && s.log <= s'.log
    ensures OneOwed(s', base, r)
  {
    OwedBefore(s, s', base, r);
  }

  /** Nothing is owed, and nothing is sent. */
  lemma NothingStaysNothing(s: Sys, s': Sys, base: set<Entry>, r: nat)
    requires NothingOwed(s, base, r) && s'.sent == s.sent && s.log <= s'.log
    ensures NothingOwed(s', base, r) && OneOwed(s', base, r)
  {
    OwedBefore(s, s', base, r);
  }

  lemma RecoveryStepKeeps(s: Sys, a: Action, s': Sys, cfg: Config, base: set<Entry>, r: nat)
    requires Inv(s, cfg) && Next(s, a, s', cfg) && OneOwed(s, base, r)
    requires a.Scan? || a.Plan? || a.RecoverNext?
    ensures OneOwed(s', base, r)
  {
    if s'.worker.Up? && (!a.RecoverNext? || r == s.worker.mode.todo[0]) {
      assert NothingOwed(s, base, r);
      NothingStaysNothing(s, s', base, r);
    } else {
      NoNewWorkKeeps(s, s', base, r);
    }
  }

  /** The request at the cursor has no output of any incarnation. */
  lemma NewRequestOwesNothing(s: Sys, base: set<Entry>)
    requires SentInv(s) && s.worker.Up? && s.worker.mode.Serving?
    ensures NothingOwed(s, base, s.worker.cursor + 1)
  {
    NewRequestUntouched(s);
  }

  lemma AcceptQueues(v: View, cfg: Config, e: Entry, at: nat, r: nat)
    requires Accept(v, cfg, e, at, false).Some? && r != at
    ensures var next := Accept(v, cfg, e, at, false).value;
            && (r in next.pending ==> r in v.pending)
            && (InControls(next, r) ==> InControls(v, r))
  {
    var next := Accept(v, cfg, e, at, false).value;
    if i :| 0 <= i < |next.controls| && next.controls[i].0 == r {
      assert i < |v.controls| && next.controls[i] == v.controls[i];
    }
  }

  lemma TookElsewhere(s: Sys, s': Sys, cfg: Config, base: set<Entry>, r: nat)
    requires s'.worker.Up? && OneOwed(s, base, r) && Took(s, s', s'.worker.view)
    requires s.worker.mode.Serving? && r != s.worker.cursor + 1
    requires Accept(s.worker.view, cfg, s.log[s.worker.cursor], s.worker.cursor + 1, false) == Some(s'.worker.view)
    ensures OneOwed(s', base, r)
  {
    AcceptQueues(s.worker.view, cfg, s.log[s.worker.cursor], s.worker.cursor + 1, r);
    NoNewWorkKeeps(s, s', base, r);
  }

  lemma ReadKeeps(s: Sys, s': Sys, cfg: Config, base: set<Entry>, r: nat)
    requires SentInv(s) && Reads(s, s', cfg) && OneOwed(s, base, r)
    ensures OneOwed(s', base, r)
  {
    if s'.worker.Down? {
      NoNewWorkKeeps(s, s', base, r);
    } else {
      ReadUp(s, s', cfg);
      if r == s.worker.cursor + 1 {
        NewRequestOwesNothing(s, base);
        NothingStaysNothing(s, s', base, r);
      } else {
        TookElsewhere(s, s', cfg, base, r);
      }
    }
  }

  lemma ScheduleKeeps(s: Sys, s': Sys, cfg: Config, base: set<Entry>, r: nat)
    requires Inv(s, cfg) && Schedules(s, s', cfg) && OneOwed(s, base, r)
    ensures OneOwed(s', base, r)
  {
    var pending := s.worker.view.pending;
    assert pending[0] in pending;
    if r == pending[0] {
      assert Waiting(s, r) && r !in s.worker.publishers;
      NothingStaysNothing(s, s', base, r);
    } else {
      assert r in pending[1..] ==> r in pending;
      NoNewWorkKeeps(s, s', base, r);
    }
  }

  lemma PickControlKeeps(s: Sys, s': Sys, cfg: Config, base: set<Entry>, r: nat)
    requires Inv(s, cfg) && PicksControl(s, s') && OneOwed(s, base, r)
    ensures OneOwed(s', base, r)
  {
    var controls := s.worker.view.controls;
    if r == controls[0].0 {
      assert InControls(s.worker.view, r);
      assert Waiting(s, r) && r !in s.worker.publishers;
      NothingStaysNothing(s, s', base, r);
    } else {
      if i :| 0 <= i < |s'.worker.view.controls| && s'.worker.view.controls[i].0 == r {
        assert controls[i + 1].0 == r;
      }
      NoNewWorkKeeps(s, s', base, r);
    }
  }

  /** A publisher without an attempt in flight prepares its next one. */
  lemma PrepareKeeps(s: Sys, a: Action, s': Sys, cfg: Config, base: set<Entry>, r: nat)
    requires Next(s, a, s', cfg) && OneOwed(s, base, r)
    requires a.StartCall? || a.Yield? || a.Fail? || a.Reject?
    ensures OneOwed(s', base, r)
  {
    if r == a.r {
      assert NothingOwed(s, base, r);
      NothingStaysNothing(s, s', base, r);
    } else {
      NoNewWorkKeeps(s, s', base, r);
    }
  }

  lemma SendOwesOne(s: Sys, s': Sys, q: nat, base: set<Entry>, r: nat)
    requires Sends(s, s', q) && OneOwed(s, base, r) && RefOf(s.worker.publishers[q].out.event) == q
    ensures OneOwed(s', base, r)
  {
    var event := s.worker.publishers[q].out.event;
    assert forall e :: Owed(s', base, r, e) ==> Owed(s, base, r, e) || (r == q && e == event);
  }

  lemma SentIsForItsRequest(s: Sys, s': Sys, q: nat, cfg: Config)
    requires Inv(s, cfg) && Sends(s, s', q)
    ensures RefOf(s.worker.publishers[q].out.event) == q
  {
    ReadyToSend(s, s', q, cfg);
  }

  lemma SendKeeps(s: Sys, s': Sys, q: nat, cfg: Config, base: set<Entry>, r: nat)
    requires Inv(s, cfg) && Sends(s, s', q) && OneOwed(s, base, r)
    ensures OneOwed(s', base, r)
  {
    SentIsForItsRequest(s, s', q, cfg);
    SendOwesOne(s, s', q, base, r);
  }

  /** A publisher that is through leaves nothing waiting behind. */
  lemma DoneKeeps(s: Sys, s': Sys, q: nat, cfg: Config, base: set<Entry>, r: nat)
    requires Inv(s, cfg) && OneOwed(s, base, r) && s.worker.Up? && q in s.worker.publishers
    requires s' == s.(worker := Finish(s.worker, q)) && !s.worker.publishers[q].role.Recovery?
    ensures OneOwed(s', base, r)
  {
    FinishFrame(s.worker, q);
    assert PublisherInv(s, q);
    if r == q {
      NotQueued(s, q, cfg);
    }
    NoNewWorkKeeps(s, s', base, r);
  }

  lemma NotQueued(s: Sys, q: nat, cfg: Config)
    requires s.worker.Up? && PendingInv(s) && ControlsInv(s) && q in s.worker.publishers
    ensures q !in s.worker.view.pending && !InControls(s.worker.view, q)
  {
  }

  lemma RecoveryDoneKeeps(s: Sys, s': Sys, q: nat, p: nat, cfg: Config, base: set<Entry>, r: nat)
    requires Inv(s, cfg) && OneOwed(s, base, r) && Returns(s, s', q, p)
    requires s.worker.publishers[q].role.Recovery?
    ensures OneOwed(s', base, r)
  {
    FinishFrame(s.worker, q);
    var todo := s.worker.mode.todo;
    if r == q {
      assert forall k :: 1 <= k < |todo| ==> todo[0] < todo[k];
    }
    assert r in todo[1..] ==> r in todo;
    NoNewWorkKeeps(s, s', base, r);
  }

  lemma CallReturnOwesNothing(s: Sys, s': Sys, q: nat, p: nat, base: set<Entry>, r: nat)
    requires OneOwed(s, base, r) && Returns(s, s', q, p)
    requires s.worker.publishers[q].role.Calling? && !s.worker.publishers[q].role.failing
    requires s.worker.publishers[q].out.event in s.log
    ensures OneOwed(s', base, r)
  {
    if r == q {
      assert NothingOwed(s, base, r);
      NothingStaysNothing(s, s', base, r);
    } else {
      NoNewWorkKeeps(s, s', base, r);
    }
  }

  lemma CallReturnKeeps(s: Sys, s': Sys, q: nat, p: nat, cfg: Config, base: set<Entry>, r: nat)
    requires Inv(s, cfg) && OneOwed(s, base, r) && Returns(s, s', q, p)
    requires s.worker.publishers[q].role.Calling? && !s.worker.publishers[q].role.failing
    ensures OneOwed(s', base, r)
  {
    ReturnedEvent(s, q, p, cfg);
    CallReturnOwesNothing(s, s', q, p, base, r);
  }

  lemma ReturnKeeps(s: Sys, s': Sys, q: nat, p: nat, cfg: Config, base: set<Entry>, r: nat)
    requires Inv(s, cfg) && OneOwed(s, base, r) && Returns(s, s', q, p)
    ensures OneOwed(s', base, r)
  {
    var role := s.worker.publishers[q].role;
    if role.Recovery? {
      RecoveryDoneKeeps(s, s', q, p, cfg, base, r);
    } else if role.Calling? && !role.failing {
      CallReturnKeeps(s, s', q, p, cfg, base, r);
    } else {
      DoneKeeps(s, s', q, cfg, base, r);
    }
  }

  lemma QuitKeeps(s: Sys, s': Sys, q: nat, cfg: Config, base: set<Entry>, r: nat)
    requires Inv(s, cfg) && OneOwed(s, base, r) && Quits(s, s', q)
    ensures OneOwed(s', base, r)
  {
    if s'.worker.Up? {
      DoneKeeps(s, s', q, cfg, base, r);
    } else {
      NoNewWorkKeeps(s, s', base, r);
    }
  }

  lemma QuietStepKeeps(s: Sys, a: Action, s': Sys, cfg: Config, base: set<Entry>, r: nat)
    requires Next(s, a, s', cfg) && OneOwed(s, base, r)
    requires a.MemberPublish? || a.Commit? || a.Stop? || a.Crash?
    ensures OneOwed(s', base, r)
  {
    NoNewWorkKeeps(s, s', base, r);
  }

  /** What recovery leaves behind is not queued. */
  lemma ServeKeeps(s: Sys, s': Sys, cfg: Config, base: set<Entry>, r: nat)
    requires Inv(s, cfg) && Serves(s, s') && OneOwed(s, base, r)
    ensures OneOwed(s', base, r)
  {
    NoNewWorkKeeps(s, s', base, r);
  }

  lemma PublisherStepKeeps(s: Sys, a: Action, s': Sys, cfg: Config, base: set<Entry>, r: nat)
    requires Inv(s, cfg) && Next(s, a, s', cfg) && OneOwed(s, base, r)
    requires a.Send? || a.Return? || a.Quit?
    ensures OneOwed(s', base, r)
  {
    match a
    case Send(q) => SendKeeps(s, s', q, cfg, base, r);
    case Return(q, p) => ReturnKeeps(s, s', q, p, cfg, base, r);
    case Quit(q) => QuitKeeps(s, s', q, cfg, base, r);
  }

  lemma ServingStepKeeps(s: Sys, a: Action, s': Sys, cfg: Config, base: set<Entry>, r: nat)
    requires Inv(s, cfg) && Next(s, a, s', cfg) && OneOwed(s, base, r)
    requires a.Serve? || a.Read? || a.Schedule? || a.PickControl?
    ensures OneOwed(s', base, r)
  {
    match a
    case Serve => ServeKeeps(s, s', cfg, base, r);
    case Read => ReadKeeps(s, s', cfg, base, r);
    case Schedule => ScheduleKeeps(s, s', cfg, base, r);
    case PickControl => PickControlKeeps(s, s', cfg, base, r);
  }

  lemma StepKeepsOneOwed(s: Sys, a: Action, s': Sys, cfg: Config, base: set<Entry>, r: nat)
    requires Inv(s, cfg) && Next(s, a, s', cfg) && OneOwed(s, base, r) && !a.Boot?
    ensures OneOwed(s', base, r)
  {
    if a.Send? || a.Return? || a.Quit? {
      PublisherStepKeeps(s, a, s', cfg, base, r);
    } else if a.Serve? || a.Read? || a.Schedule? || a.PickControl? {
      ServingStepKeeps(s, a, s', cfg, base, r);
    } else if a.Scan? || a.Plan? || a.RecoverNext? {
      RecoveryStepKeeps(s, a, s', cfg, base, r);
    } else if a.StartCall? || a.Yield? || a.Fail? || a.Reject? {
      PrepareKeeps(s, a, s', cfg, base, r);
    } else {
      QuietStepKeeps(s, a, s', cfg, base, r);
    }
  }

  // ---------------------------------------------------------------- one incarnation

  /** The actions after `b` and before `n` belong to the incarnation that `b` booted. */
  ghost predicate Incarnation(actions: seq<Action>, b: nat, n: nat) {
    b < n <= |actions| && actions[b].Boot? && forall k :: b < k < n ==> !actions[k].Boot?
  }

  lemma {:induction false} RunKeepsOneOwed(
    states: seq<Sys>, actions: seq<Action>, cfg: Config, b: nat, n: nat, r: nat)
    requires Run(states, actions, cfg) && Incarnation(actions, b, n)
    ensures OneOwed(states[n], states[b].sent, r)
    decreases n
  {
    assert StepAt(states, actions, cfg, n - 1);
    if n - 1 > b {
      RunKeepsOneOwed(states, actions, cfg, b, n - 1, r);
      RunKeepsInv(states, actions, cfg, n - 1);
      StepKeepsOneOwed(states[n - 1], actions[n - 1], states[n], cfg, states[b].sent, r);
    } else {
      BootOwesNothing(states[b], states[n], r);
    }
  }

  lemma BootOwesNothing(s: Sys, s': Sys, r: nat)
    requires Boots(s, s')
    ensures OneOwed(s', s.sent, r)
  {
    assert NothingOwed(s', s.sent, r);
  }

  // ---------------------------------------------------------------- after the terminal was read

  ghost predicate ObservedIfUp(s: Sys, r: nat) {
    s.worker.Up? ==> Observed(s, r)
  }

  lemma EntryKeepsObserved(s: Sys, s': Sys, e: Entry, r: nat)
    requires ObservedIfUp(s, r) && s' == s.(log := s.log + [e], nextUuid := s'.nextUuid)
    ensures ObservedIfUp(s', r)
  {
    if s.worker.Up? {
      assert At(s'.log, r) == At(s.log, r);
    }
  }

  lemma StepKeepsObserved(s: Sys, a: Action, s': Sys, cfg: Config, r: nat)
    requires Next(s, a, s', cfg) && !a.Boot? && ObservedIfUp(s, r)
    ensures ObservedIfUp(s', r)
  {
    if a.MemberPublish? || a.Commit? {
      EntryKeepsObserved(s, s', a.e, r);
    } else if s.worker.Up? && s'.worker.Up? {
      WorkerKeepsObserved(s, a, s', cfg, r);
    }
  }

  lemma WorkerKeepsObserved(s: Sys, a: Action, s': Sys, cfg: Config, r: nat)
    requires Next(s, a, s', cfg) && !a.Boot? && !a.MemberPublish? && !a.Commit?
    requires s.worker.Up? && Observed(s, r) && s'.worker.Up?
    ensures Observed(s', r)
  {
    match a
    case Read => AcceptKeepsTerminal(s.worker.view, cfg, s.log[s.worker.cursor], s.worker.cursor + 1, r);
    case Return(q, _) => FinishKeepsTerminals(s.worker, q, r);
    case Quit(q) => FinishKeepsTerminals(s.worker, q, r);
    case _ =>
  }

  lemma {:induction false} RunKeepsObserved(
    states: seq<Sys>, actions: seq<Action>, cfg: Config, i: nat, j: nat, r: nat)
    requires Run(states, actions, cfg) && i <= j < |states| && ObservedIfUp(states[i], r)
    requires forall k :: i <= k < j ==> !actions[k].Boot?
    ensures ObservedIfUp(states[j], r)
    decreases j
  {
    if i < j {
      RunKeepsObserved(states, actions, cfg, i, j - 1, r);
      assert StepAt(states, actions, cfg, j - 1);
      StepKeepsObserved(states[j - 1], actions[j - 1], states[j], cfg, r);
    }
  }

  /** Nothing of the incarnation is in flight for `r`, and nothing will be. */
  ghost predicate Spent(s: Sys, base: set<Entry>, r: nat) {
    Silenced(s, r) && NothingOwed(s, base, r)
  }

  /** An own output committed after the terminal was read was the only one in flight, and
      its publisher can not send another. */
  lemma CommitSpends(s: Sys, s': Sys, cfg: Config, base: set<Entry>, r: nat, e: Entry)
    requires Inv(s, cfg) && Commits(s, s', e) && OneOwed(s, base, r) && ObservedIfUp(s, r)
    requires e !in base && RefOf(e) == r
    ensures Spent(s', base, r)
  {
    assert Owed(s, base, r, e);
    OwedBefore(s, s', base, r);
    StepKeepsObserved(s, Commit(e), s', cfg, r);
  }

  lemma SendElsewhere(s: Sys, s': Sys, q: nat, base: set<Entry>, r: nat)
    requires Sends(s, s', q) && NothingOwed(s, base, r) && q != r
    requires RefOf(s.worker.publishers[q].out.event) == q
    ensures NothingOwed(s', base, r)
  {
    assert forall e :: Owed(s', base, r, e) ==> Owed(s, base, r, e);
  }

  lemma StepOwesNothing(s: Sys, a: Action, s': Sys, cfg: Config, base: set<Entry>, r: nat)
    requires Next(s, a, s', cfg) && !a.Send? && NothingOwed(s, base, r)
    ensures NothingOwed(s', base, r)
  {
    SendsOnly(s, a, s', cfg);
    StepGrowsLog(s, a, s', cfg);
    OwedBefore(s, s', base, r);
  }

  lemma StepKeepsSpent(s: Sys, a: Action, s': Sys, cfg: Config, base: set<Entry>, r: nat)
    requires Inv(s, cfg) && Next(s, a, s', cfg) && !a.Boot? && Spent(s, base, r)
    ensures Spent(s', base, r)
  {
    StepKeepsSilence(s, a, s', cfg, r);
    if a.Send? {
      SentIsForItsRequest(s, s', a.r, cfg);
      SendElsewhere(s, s', a.r, base, r);
    } else {
      StepOwesNothing(s, a, s', cfg, base, r);
    }
  }

  lemma SendsOnly(s: Sys, a: Action, s': Sys, cfg: Config)
    requires Next(s, a, s', cfg) && !a.Send?
    ensures s'.sent == s.sent
  {
  }

  lemma {:induction false} RunKeepsSpent(
    states: seq<Sys>, actions: seq<Action>, cfg: Config, i: nat, j: nat, base: set<Entry>, r: nat)
    requires Run(states, actions, cfg) && i <= j < |states| && Spent(states[i], base, r)
    requires forall k :: i <= k < j ==> !actions[k].Boot?
    ensures Spent(states[j], base, r)
    decreases j
  {
    if i < j {
      RunKeepsSpent(states, actions, cfg, i, j - 1, base, r);
      RunKeepsInv(states, actions, cfg, j - 1);
      assert StepAt(states, actions, cfg, j - 1);
      StepKeepsSpent(states[j - 1], actions[j - 1], states[j], cfg, base, r);
    }
  }

  lemma CommittedWasOwed(s: Sys, s': Sys, base: set<Entry>, e: Entry)
    requires Commits(s, s', e) && e !in base
    ensures Owed(s, base, RefOf(e), e)
  {
  }

  /** What the incarnation sent by `n` and is committed at `k` or later was owed at `n`. */
  lemma CommittedLaterWasOwed(
    states: seq<Sys>, actions: seq<Action>, cfg: Config, n: nat, k: nat, base: set<Entry>, e: Entry)
    requires Run(states, actions, cfg) && n <= k < |actions| && actions[k] == Commit(e)
    requires e in states[n].sent && e !in base
    ensures Owed(states[n], base, RefOf(e), e)
  {
    assert StepAt(states, actions, cfg, k);
    LogGrows(states, actions, cfg, n, k);
    NotYetInPrefix(states[n].log, states[k].log, e);
  }

  lemma NotYetInPrefix(log: Log, more: Log, e: Entry)
    requires log <= more && forall f :: f in more ==> f.uuid != e.uuid
    ensures e !in log
  {
    assert forall f :: f in log ==> f in more;
  }

  lemma CommittedOnce(
    states: seq<Sys>, actions: seq<Action>, cfg: Config, j: nat, k: nat, e: Entry)
    requires Run(states, actions, cfg) && j < k < |actions| && actions[j] == Commit(e)
    ensures actions[k] != Commit(e)
  {
    assert StepAt(states, actions, cfg, j);
    assert e in states[j + 1].log;
    LogGrows(states, actions, cfg, j + 1, k);
    assert e in states[k].log;
    assert StepAt(states, actions, cfg, k);
  }

  /** The first own output that is committed after the terminal was read, while the incarnation
      lasts, is the last one. */
  lemma SpentByCommit(
    states: seq<Sys>, actions: seq<Action>, cfg: Config, b: nat, i: nat, j: nat, t: nat, r: nat, e: Entry)
    requires Run(states, actions, cfg) && b < i <= j < t <= |actions| && Incarnation(actions, b, t)
    requires states[i].worker.Up? && Observed(states[i], r)
    requires actions[j] == Commit(e) && e !in states[b].sent && RefOf(e) == r
    ensures Spent(states[t], states[b].sent, r)
  {
    RunKeepsObserved(states, actions, cfg, i, j, r);
    RunKeepsOneOwed(states, actions, cfg, b, j, r);
    RunKeepsInv(states, actions, cfg, j);
    assert StepAt(states, actions, cfg, j);
    CommitSpends(states[j], states[j + 1], cfg, states[b].sent, r, e);
    RunKeepsSpent(states, actions, cfg, j + 1, t, states[b].sent, r);
  }

  /** Once an incarnation has read the terminal of a request, at most one more of its outputs
      for the request reaches the log, ever: whether it was in flight by then, is sent later,
      or is committed when the incarnation is gone and others have followed. `b` boots the
      incarnation, `n` is where it ends, or any point of its life, and its outputs are what was
      sent in between. */
  lemma AtMostOneOutputAfterTerminal(
    states: seq<Sys>, actions: seq<Action>, cfg: Config, b: nat, n: nat, i: nat, j: nat, k: nat,
    r: nat, e: Entry, f: Entry)
    requires Run(states, actions, cfg) && Incarnation(actions, b, n) && b < i <= n
    requires i <= j < k < |actions|
    requires states[i].worker.Up? && Observed(states[i], r)
    requires actions[j] == Commit(e) && e !in states[b].sent && e in states[n].sent && RefOf(e) == r
    requires actions[k] == Commit(f) && f !in states[b].sent && f in states[n].sent
    ensures RefOf(f) != r
  {
    var base := states[b].sent;
    if j >= n {
      CommittedLaterWasOwed(states, actions, cfg, n, j, base, e);
      CommittedLaterWasOwed(states, actions, cfg, n, k, base, f);
      RunKeepsOneOwed(states, actions, cfg, b, n, r);
      CommittedOnce(states, actions, cfg, j, k, e);
    } else if k >= n {
      SpentByCommit(states, actions, cfg, b, i, j, n, r, e);
      CommittedLaterWasOwed(states, actions, cfg, n, k, base, f);
    } else {
      SpentByCommit(states, actions, cfg, b, i, j, k, r, e);
      assert StepAt(states, actions, cfg, k);
      CommittedWasOwed(states[k], states[k + 1], base, f);
    }
  }
}
