/** The streamed bodies: what readers of the log accept, against what the provider call
    has yielded. */
module SystemBodies {
  import opened Protocol
  import opened Progress
  import opened WorkerView
  import opened ProviderEvents
  import opened System
  import opened SystemInvariant
  import opened SystemLogProof
  import opened SystemWorkerProof
  import opened SystemPublishProof
  import opened SystemTheorems

  ghost predicate NoProviderEnd(s: Sys, r: nat) {
    forall e :: e in s.sent && RefOf(e) == r ==> !IsProviderEnd(e)
  }

  ghost predicate BodySound(s: Sys, r: nat)
    requires IsRequest(s.log, r)
  {
    var accepted, produced := Bodies(s.log, r), Produced(s, r);
    && accepted <= produced
    && (!Decided(s, r) ==>
          forall e :: Outstanding(s, r, e) && e.payload.InferAppend? ==> accepted + [e.payload.chunk] == produced)
    && (!Decided(s, r) && !NoProviderEnd(s, r) ==> accepted == produced)
    && (Decided(s, r) && WonByProvider(s, r) ==> accepted == produced)
  }

  /** The winning terminal is the end the provider call of `r` yielded. */
  ghost predicate WonByProvider(s: Sys, r: nat)
    requires IsRequest(s.log, r) && Decided(s, r)
  {
    var w := Track(s.log, r).terminal.value;
    1 <= w <= |s.log| && IsProviderEnd(At(s.log, w))
  }

  /** The event a task is publishing accounts for what its call has yielded so far. */
  ghost predicate BodyCall(s: Sys, r: nat, p: Publisher)
    requires IsRequest(s.log, r) && p.role.Calling?
  {
    var accepted, produced := Bodies(s.log, r), Produced(s, r);
    && (!p.role.stage.Closed? ==> NoProviderEnd(s, r))
    && (!p.out.Idle? && IsProviderEnd(p.out.event) ==> p.role.stage.Closed? && !p.role.failing)
    && (!Decided(s, r) ==>
          match p.out
          case Idle => accepted == produced
          case Ready(e) =>
            if e.payload.InferAppend? then accepted + [e.payload.chunk] == produced
            else p.role.failing || accepted == produced
          case Sent(e) =>
            if e.payload.InferAppend? then e in s.log ==> accepted == produced
            else p.role.failing || accepted == produced)
  }

  ghost predicate BodyInv(s: Sys) {
    && (forall r: nat :: IsRequest(s.log, r) ==> BodySound(s, r))
    && (forall r :: r in Publishers(s) && Publishers(s)[r].role.Calling? ==>
          IsRequest(s.log, r) && BodyCall(s, r, Publishers(s)[r]))
  }

  // ---------------------------------------------------------------- the log grows

  lemma AcceptedAfterEntry(s: Sys, s': Sys, e: Entry, r: nat)
    requires Grows(s, s', e) && IsRequest(s.log, r) && Sound(s, r)
    ensures IsRequest(s'.log, r)
    ensures !Decided(s, r) && Outstanding(s, r, e) && e.payload.InferAppend? ==>
              Bodies(s'.log, r) == Bodies(s.log, r) + [e.payload.chunk]
    ensures Decided(s, r) || !Outstanding(s, r, e) || !e.payload.InferAppend? ==>
              Bodies(s'.log, r) == Bodies(s.log, r)
  {
    BodiesStep(s.log, r, e);
    assert Outstanding(s, r, e) ==> ShapeOk(s, r, e);
    if !Decided(s, r) && e.payload.InferAppend? && Outstanding(s, r, e) {
      assert Fits(Track(s.log, r), e);
    }
  }

  lemma DecidedBodiesAfterEntry(s: Sys, s': Sys, e: Entry, r: nat)
    requires Grows(s, s', e) && IsRequest(s.log, r) && Sound(s, r) && BodySound(s, r) && Decided(s, r)
    ensures IsRequest(s'.log, r) && BodySound(s', r)
  {
    AcceptedAfterEntry(s, s', e, r);
    TrackStep(s.log, r, e);
    TrackExplained(s.log, r);
    assert At(s'.log, Track(s.log, r).terminal.value) == At(s.log, Track(s.log, r).terminal.value);
  }

  lemma BodySoundAfterEntry(s: Sys, s': Sys, e: Entry, r: nat)
    requires Grows(s, s', e) && IsRequest(s.log, r) && Sound(s, r) && BodySound(s, r)
    ensures IsRequest(s'.log, r) && BodySound(s', r)
  {
    if Decided(s, r) {
      DecidedBodiesAfterEntry(s, s', e, r);
    } else {
      CommittedExtends(s, s', e);
      TrackAfterEntry(s, s', e, r);
      AcceptedAfterEntry(s, s', e, r);
      TrackStep(s.log, r, e);
      if Decided(s', r) && IsProviderEnd(e) && !NoProviderEnd(s, r) {
        assert Bodies(s.log, r) == Produced(s, r);
      } else if Outstanding(s, r, e) {
        assert ShapeOk(s, r, e);
      }
    }
  }

  lemma BodyCallAfterEntry(s: Sys, s': Sys, e: Entry, r: nat, p: Publisher)
    requires Grows(s, s', e) && IsRequest(s.log, r) && Sound(s, r) && BodySound(s, r)
    requires p.role.Calling? && CallInv(s, r, p) && BodyCall(s, r, p)
    ensures IsRequest(s'.log, r) && BodyCall(s', r, p)
  {
    CommittedExtends(s, s', e);
    TrackAfterEntry(s, s', e, r);
    AcceptedAfterEntry(s, s', e, r);
    assert Decided(s, r) ==> Decided(s', r);
  }

  lemma NewRequestHasNoBodies(s: Sys, s': Sys, e: Entry)
    requires Grows(s, s', e) && SentInv(s) && e.payload.InferRequest?
    ensures IsRequest(s'.log, |s'.log|) && BodySound(s', |s'.log|)
  {
    TrackStart(s'.log);
    assert Bodies(s'.log, |s'.log|) == [];
    assert forall f :: f in s'.sent ==> RefOf(f) <= |s.log|;
  }

  lemma EntryKeepsBodies(s: Sys, s': Sys, e: Entry, cfg: Config)
    requires Inv(s, cfg) && BodyInv(s) && Grows(s, s', e)
    ensures BodyInv(s')
  {
    forall r: nat | IsRequest(s'.log, r) ensures BodySound(s', r) {
      if r <= |s.log| {
        RequestsExtend(s, s', e, r);
        assert Sound(s, r) && BodySound(s, r);
        BodySoundAfterEntry(s, s', e, r);
      } else {
        NewRequestHasNoBodies(s, s', e);
      }
    }
    forall r | r in Publishers(s') && Publishers(s')[r].role.Calling?
      ensures IsRequest(s'.log, r) && BodyCall(s', r, Publishers(s')[r])
    {
      assert PublisherInv(s, r) && Sound(s, r) && BodySound(s, r);
      BodyCallAfterEntry(s, s', e, r, Publishers(s)[r]);
    }
  }

  // ---------------------------------------------------------------- the Worker moves

  /** Log, attempts and produced bodies are as before, and so is every call that remains. */
  ghost predicate CallsRemain(s: Sys, s': Sys) {
    && s'.log == s.log && s'.sent == s.sent && s'.produced == s.produced
    && forall r :: r in Publishers(s') && Publishers(s')[r].role.Calling? ==>
         r in Publishers(s) && Publishers(s')[r] == Publishers(s)[r]
  }

  lemma RemainingKeepsBodies(s: Sys, s': Sys)
    requires BodyInv(s) && CallsRemain(s, s')
    ensures BodyInv(s')
  {
    forall r: nat | IsRequest(s'.log, r) ensures BodySound(s', r) {
      assert BodySound(s, r);
      SameBodySound(s, s', r);
    }
    forall r | r in Publishers(s') && Publishers(s')[r].role.Calling?
      ensures IsRequest(s'.log, r) && BodyCall(s', r, Publishers(s')[r])
    {
      SameBodyCall(s, s', r, Publishers(s)[r]);
    }
  }

  lemma SameBodySound(s: Sys, s': Sys, r: nat)
    requires s'.log == s.log && s'.sent == s.sent && s'.produced == s.produced
    requires IsRequest(s.log, r) && BodySound(s, r)
    ensures BodySound(s', r)
  {
  }

  lemma SameBodyCall(s: Sys, s': Sys, r: nat, p: Publisher)
    requires s'.log == s.log && s'.sent == s.sent && s'.produced == s.produced
    requires IsRequest(s.log, r) && p.role.Calling? && BodyCall(s, r, p)
    ensures BodyCall(s', r, p)
  {
  }

  /** Nothing but the publisher of `r` and its produced bodies changes. */
  ghost predicate OnlyCall(s: Sys, s': Sys, r: nat) {
    && s.worker.Up? && s'.worker.Up? && s'.log == s.log
    && (forall q: nat :: q != r ==> Produced(s', q) == Produced(s, q))
    && (forall e :: e in s.sent ==> e in s'.sent)
    && (forall e :: e in s'.sent ==> e in s.sent || RefOf(e) == r)
    && (forall q :: q in Publishers(s') && q != r ==> q in Publishers(s) && Publishers(s')[q] == Publishers(s)[q])
  }

  lemma OneCallKeepsBodies(s: Sys, s': Sys, r: nat)
    requires BodyInv(s) && OnlyCall(s, s', r) && IsRequest(s.log, r)
    requires BodySound(s', r)
    requires r in Publishers(s') && Publishers(s')[r].role.Calling? ==> BodyCall(s', r, Publishers(s')[r])
    ensures BodyInv(s')
  {
    forall q: nat | IsRequest(s'.log, q) ensures BodySound(s', q) {
      if q != r {
        OtherBodySound(s, s', r, q);
      }
    }
    forall q | q in Publishers(s') && Publishers(s')[q].role.Calling? && q != r
      ensures IsRequest(s'.log, q) && BodyCall(s', q, Publishers(s')[q])
    {
      OtherBodyCall(s, s', r, q, Publishers(s)[q]);
    }
  }

  lemma OtherBodySound(s: Sys, s': Sys, r: nat, q: nat)
    requires OnlyCall(s, s', r) && q != r && IsRequest(s.log, q) && BodySound(s, q)
    ensures BodySound(s', q)
  {
    assert NoProviderEnd(s', q) == NoProviderEnd(s, q);
    assert forall e :: Outstanding(s', q, e) ==> Outstanding(s, q, e);
  }

  lemma OtherBodyCall(s: Sys, s': Sys, r: nat, q: nat, p: Publisher)
    requires OnlyCall(s, s', r) && q != r && IsRequest(s.log, q) && p.role.Calling? && BodyCall(s, q, p)
    ensures BodyCall(s', q, p)
  {
    assert NoProviderEnd(s', q) == NoProviderEnd(s, q);
  }

  lemma NothingOutstanding(s: Sys, s': Sys, r: nat)
    requires OnlyOutstanding(s, r, None) && s'.log == s.log && s'.sent == s.sent
    ensures forall e :: !Outstanding(s', r, e)
  {
    assert forall e :: Outstanding(s', r, e) ==> Outstanding(s, r, e);
  }

  lemma YieldKeepsBodies(s: Sys, s': Sys, r: nat, event: ProviderEvent)
    requires UniqueLog(s) && BodyInv(s) && Yields(s, s', r, event) && PublisherInv(s, r)
    ensures BodyInv(s')
  {
    var p, p' := s.worker.publishers[r], s'.worker.publishers[r];
    assert r in Publishers(s) && BodyCall(s, r, p) && BodySound(s, r) && CallInv(s, r, p);
    assert Publishers(s') == s'.worker.publishers;
    NothingOutstanding(s, s', r);
    if Decided(s, r) {
      NotWon(s, r);
    }
    assert BodySound(s', r);
    assert BodyCall(s', r, p');
    OneCallKeepsBodies(s, s', r);
  }

  /** Without an end of the call among what was sent, the call did not win. */
  lemma NotWon(s: Sys, r: nat)
    requires UniqueLog(s) && IsRequest(s.log, r) && Decided(s, r) && NoProviderEnd(s, r)
    ensures !WonByProvider(s, r)
  {
    TrackExplained(s.log, r);
    var w := Track(s.log, r).terminal.value;
    if 1 <= w <= |s.log| {
      assert At(s.log, w) in s.log;
    }
  }

  lemma FailKeepsBodies(s: Sys, s': Sys, r: nat, code: int, dropped: seq<Json>)
    requires UniqueLog(s) && BodyInv(s) && Fails(s, s', r, code, dropped) && PublisherInv(s, r)
    ensures BodyInv(s')
  {
    var p, p' := s.worker.publishers[r], s'.worker.publishers[r];
    assert r in Publishers(s) && BodyCall(s, r, p) && BodySound(s, r) && CallInv(s, r, p);
    assert Publishers(s') == s'.worker.publishers;
    assert Produced(s', r) == Produced(s, r) + dropped;
    assert dropped == [] ==> Produced(s', r) == Produced(s, r);
    NothingOutstanding(s, s', r);
    if dropped != [] && Decided(s, r) {
      NotWon(s, r);
    }
    assert BodySound(s', r);
    assert BodyCall(s', r, p');
    OneCallKeepsBodies(s, s', r);
  }

  lemma SendKeepsBodies(s: Sys, s': Sys, r: nat, cfg: Config)
    requires Inv(s, cfg) && BodyInv(s) && Sends(s, s', r)
    ensures BodyInv(s')
  {
    var e := s.worker.publishers[r].out.event;
    ReadyToSend(s, s', r, cfg);
    SentKeepsAccount(s, s', r, e);
    OneCallKeepsBodies(s, s', r);
  }

  lemma SentKeepsAccount(s: Sys, s': Sys, r: nat, e: Entry)
    requires BodyInv(s) && Sending(s, s', r, e) && RefOf(e) == r && PublisherInv(s, r)
    ensures BodySound(s', r) && OnlyCall(s, s', r)
    ensures s'.worker.publishers[r].role.Calling? ==> BodyCall(s', r, s'.worker.publishers[r])
  {
    var p := s.worker.publishers[r];
    assert r in Publishers(s) && BodySound(s, r);
    assert e !in s.log;
    assert forall f :: Outstanding(s', r, f) <==> Outstanding(s, r, f) || f == e;
    assert NoProviderEnd(s', r) <==> NoProviderEnd(s, r) && !IsProviderEnd(e);
    if p.role.Calling? {
      assert BodyCall(s, r, p) && CallInv(s, r, p);
    }
  }

  lemma CallReturnKeepsAccount(s: Sys, s': Sys, r: nat, q: nat)
    requires BodyInv(s) && Returns(s, s', r, q) && PublisherInv(s, r)
    requires s.worker.publishers[r].role.Calling? && !s.worker.publishers[r].role.failing
    requires s.worker.publishers[r].out.event in s.log
    ensures BodyInv(s')
  {
    var p := s.worker.publishers[r];
    assert r in Publishers(s) && BodyCall(s, r, p) && BodySound(s, r);
    assert BodySound(s', r);
    assert BodyCall(s', r, s'.worker.publishers[r]);
    OneCallKeepsBodies(s, s', r);
  }

  lemma ReturnKeepsBodies(s: Sys, s': Sys, r: nat, q: nat, cfg: Config)
    requires Inv(s, cfg) && BodyInv(s) && Returns(s, s', r, q)
    ensures BodyInv(s')
  {
    var role := s.worker.publishers[r].role;
    if role.Calling? && !role.failing {
      ReturnedEvent(s, r, q, cfg);
      assert PublisherInv(s, r);
      CallReturnKeepsAccount(s, s', r, q);
    } else {
      FinishedCallsRemain(s, s', r);
      RemainingKeepsBodies(s, s');
    }
  }

  lemma FinishedCallsRemain(s: Sys, s': Sys, r: nat)
    requires s.worker.Up? && r in s.worker.publishers && s'.worker.Up?
    requires s'.worker.publishers == Finish(s.worker, r).publishers
    requires s'.log == s.log && s'.sent == s.sent && s'.produced == s.produced
    ensures CallsRemain(s, s')
  {
    FinishFrame(s.worker, r);
  }

  lemma StartCallKeepsAccount(s: Sys, s': Sys, r: nat)
    requires BodyInv(s) && StartsCall(s, s', r) && IsRequest(s.log, r) && Bodies(s.log, r) == []
    requires Produced(s, r) == [] && NoProviderEnd(s, r)
    ensures BodyInv(s')
  {
    assert BodySound(s, r);
    assert BodySound(s', r);
    assert BodyCall(s', r, s'.worker.publishers[r]);
    OneCallKeepsBodies(s, s', r);
  }

  lemma StartCallKeepsBodies(s: Sys, s': Sys, r: nat, cfg: Config)
    requires Inv(s, cfg) && BodyInv(s) && StartsCall(s, s', r)
    ensures BodyInv(s')
  {
    StartCallKeepsOwn(s, s', r);
    UntouchedHasNoBodies(s, r);
    StartCallKeepsAccount(s, s', r);
  }

  lemma UntouchedHasNoBodies(s: Sys, r: nat)
    requires UniqueLog(s) && IsRequest(s.log, r) && Untouched(s, r)
    ensures Bodies(s.log, r) == []
  {
    forall t | r < t <= |s.log| ensures !AppendAt(s.log, r, t) {
      assert At(s.log, t) in s.log;
    }
    NoBodies(s.log, r);
  }

  lemma OtherStepsRemain(s: Sys, a: Action, s': Sys, cfg: Config)
    requires Next(s, a, s', cfg)
    requires a.Boot? || a.Scan? || a.Plan? || a.RecoverNext? || a.Serve? || a.Read? || a.Schedule?
             || a.PickControl? || a.Stop? || a.Crash?
    ensures CallsRemain(s, s')
  {
  }

  lemma RejectCallsRemain(s: Sys, s': Sys, r: nat)
    requires Rejects(s, s', r)
    ensures CallsRemain(s, s')
  {
  }

  lemma QuitCallsRemain(s: Sys, s': Sys, r: nat)
    requires Quits(s, s', r)
    ensures CallsRemain(s, s')
  {
    if s'.worker.Up? {
      FinishedCallsRemain(s, s', r);
    }
  }

  lemma PublishingStepKeepsBodies(s: Sys, a: Action, s': Sys, cfg: Config)
    requires Inv(s, cfg) && BodyInv(s) && Next(s, a, s', cfg) && ByPublisher(a)
    ensures BodyInv(s')
  {
    match a
    case Yield(r, event) => YieldKeepsBodies(s, s', r, event);
    case Fail(r, code, dropped) => FailKeepsBodies(s, s', r, code, dropped);
    case Reject(r) => RejectCallsRemain(s, s', r); RemainingKeepsBodies(s, s');
    case Send(r) => SendKeepsBodies(s, s', r, cfg);
    case Return(r, q) => ReturnKeepsBodies(s, s', r, q, cfg);
    case Quit(r) => QuitCallsRemain(s, s', r); RemainingKeepsBodies(s, s');
  }

  lemma StepKeepsBodies(s: Sys, a: Action, s': Sys, cfg: Config)
    requires Inv(s, cfg) && BodyInv(s) && Next(s, a, s', cfg)
    ensures BodyInv(s')
  {
    if ByPublisher(a) {
      PublishingStepKeepsBodies(s, a, s', cfg);
    } else if a.MemberPublish? || a.Commit? {
      EntryKeepsBodies(s, s', a.e, cfg);
    } else if a.StartCall? {
      StartCallKeepsBodies(s, s', a.r, cfg);
    } else {
      OtherStepsRemain(s, a, s', cfg);
      RemainingKeepsBodies(s, s');
    }
  }

  lemma StepAtKeepsBodies(states: seq<Sys>, actions: seq<Action>, cfg: Config, i: nat)
    requires |states| == |actions| + 1 && i < |actions| && StepAt(states, actions, cfg, i)
    requires Inv(states[i], cfg) && BodyInv(states[i])
    ensures BodyInv(states[i + 1])
  {
    StepKeepsBodies(states[i], actions[i], states[i + 1], cfg);
  }

  lemma RunStepKeepsBodies(states: seq<Sys>, actions: seq<Action>, cfg: Config, i: nat)
    requires Run(states, actions, cfg) && i < |actions| && BodyInv(states[i])
    ensures BodyInv(states[i + 1])
  {
    RunKeepsInv(states, actions, cfg, i);
    StepAtKeepsBodies(states, actions, cfg, i);
  }

  lemma {:induction false} RunKeepsBodies(states: seq<Sys>, actions: seq<Action>, cfg: Config, i: nat)
    requires Run(states, actions, cfg) && i < |states|
    ensures BodyInv(states[i])
  {
    if i > 0 {
      RunKeepsBodies(states, actions, cfg, i - 1);
      RunStepKeepsBodies(states, actions, cfg, i - 1);
    }
  }

  /** The appends that readers accept are, in order and without loss or duplication, the
      first bodies the provider call produced; they are all of them when the winning
      terminal is the end that call yielded. */
  lemma StreamIsPrefixOfProduced(states: seq<Sys>, actions: seq<Action>, cfg: Config, i: nat, r: nat)
    requires Run(states, actions, cfg) && i < |states| && IsRequest(states[i].log, r)
    ensures Bodies(states[i].log, r) <= Produced(states[i], r)
    ensures forall w: nat :: Wins(states[i].log, r, w) && IsProviderEnd(At(states[i].log, w)) ==>
              Bodies(states[i].log, r) == Produced(states[i], r)
  {
    RunKeepsBodies(states, actions, cfg, i);
    NoRequestFaults(states, actions, cfg, i, r);
    TerminalIsEarliestCandidate(states[i].log, r);
    assert BodySound(states[i], r);
  }
}
