/** Where an output comes from: the event a provider call yielded, or an error that was
    reported; and that it says what that event said. */
module SystemOrigin {
  import opened Protocol
  import opened Progress
  import opened WorkerView
  import opened ProviderEvents
  import opened System
  import opened SystemInvariant
  import opened SystemWorkerProof
  import opened SystemTheorems
  import opened SystemPublishProof
  import opened SystemAdmission

  // ---------------------------------------------------------------- what an output says

  /** The payload says what the event says: kind, status, body and end status. */
  predicate Carries(p: Payload, event: ProviderEvent) {
    match event
    case Headers(status) => p.InferResult? && p.status == status && p.resultBody.None?
    case Result(status, body) => p.InferResult? && p.status == status && p.resultBody == Some(body)
    case Append(_, body) => p.InferAppend? && p.chunk == body
    case Completed(status, body) =>
      p.InferEnd? && p.status == status && p.endStatus.Completed? && p.endBody == body
    case Failed(status, body) =>
      p.InferEnd? && p.status == status && p.endStatus.Failed? && p.endBody == Some(body)
  }

  predicate IsReportedError(code: int) {
    code in {60000, 60001, 60002, 60003, 60005, 60007, 60008, 60009}
  }

  /** An error output with this code: an interrupted end or a result, with the error's body. */
  predicate SaysError(p: Payload, code: int) {
    || (p.InferResult? && p.status == code && p.resultBody == Some(ERROR_BODY))
    || (p.InferEnd? && p.status == code && p.endStatus.Interrupted? && p.endBody == Some(ERROR_BODY))
  }

  lemma OutputCarries(st: State, event: ProviderEvent, writer: Option<nat>)
    requires event.Append? ==> writer.Some?
    ensures Carries(OutputPayload(st, event, writer), event)
    ensures event.Append? ==> OutputPayload(st, event, writer).prevSeq == writer.value
  {
  }

  lemma ErrorSays(st: State, code: int, recovery: bool, rejection: bool)
    ensures SaysError(ErrorPayload(st, code, recovery, rejection), code)
  {
  }

  // ---------------------------------------------------------------- the action that froze it

  /** The action at `j` froze this output. */
  ghost predicate FrozenAt(actions: seq<Action>, j: nat, e: Entry) {
    j < |actions| &&
    match actions[j]
    case Yield(r, event) => RefOf(e) == r && Carries(e.payload, event)
    case Fail(r, code, _) => RefOf(e) == r && SaysError(e.payload, code) && IsTaskError(code)
    case Reject(r) => RefOf(e) == r && exists code :: SaysError(e.payload, code) && IsReportedError(code)
    case _ => false
  }

  ghost predicate HasOrigin(actions: seq<Action>, i: nat, e: Entry) {
    exists j: nat :: j < i && FrozenAt(actions, j, e)
  }

  ghost predicate OriginInv(s: Sys, actions: seq<Action>, i: nat) {
    && (forall e :: e in s.sent ==> HasOrigin(actions, i, e))
    && (forall r :: r in Publishers(s) && Publishers(s)[r].out.Ready? ==>
          HasOrigin(actions, i, Publishers(s)[r].out.event))
  }

  lemma OriginLasts(actions: seq<Action>, i: nat, e: Entry)
    requires HasOrigin(actions, i, e)
    ensures HasOrigin(actions, i + 1, e)
  {
    var j: nat :| j < i && FrozenAt(actions, j, e);
    assert j < i + 1 && FrozenAt(actions, j, e);
  }

  /** Nothing is frozen, and nothing sent that was not. */
  ghost predicate NothingFrozen(s: Sys, s': Sys) {
    && (forall e :: e in s'.sent ==>
          e in s.sent || exists r :: r in Publishers(s) && Publishers(s)[r].out == Ready(e))
    && (forall r :: r in Publishers(s') && Publishers(s')[r].out.Ready? ==>
          r in Publishers(s) && Publishers(s)[r].out == Publishers(s')[r].out)
  }

  lemma NothingFrozenKeeps(s: Sys, s': Sys, actions: seq<Action>, i: nat)
    requires OriginInv(s, actions, i) && NothingFrozen(s, s')
    ensures OriginInv(s', actions, i + 1)
  {
    forall e | e in s'.sent ensures HasOrigin(actions, i + 1, e) {
      if e !in s.sent {
        var r :| r in Publishers(s) && Publishers(s)[r].out == Ready(e);
        assert Publishers(s)[r].out.event == e;
      }
      OriginLasts(actions, i, e);
    }
    forall r | r in Publishers(s') && Publishers(s')[r].out.Ready?
      ensures HasOrigin(actions, i + 1, Publishers(s')[r].out.event)
    {
      OriginLasts(actions, i, Publishers(s')[r].out.event);
    }
  }

  /** One publisher has frozen `e`. */
  ghost predicate OneFrozen(s: Sys, s': Sys, r: nat, e: Entry) {
    && s'.sent == s.sent
    && (forall q :: q in Publishers(s') && Publishers(s')[q].out.Ready? ==>
          if q == r then Publishers(s')[q].out.event == e
          else q in Publishers(s) && Publishers(s')[q] == Publishers(s)[q])
  }

  lemma OneFrozenKeeps(s: Sys, s': Sys, actions: seq<Action>, i: nat, r: nat, e: Entry)
    requires OriginInv(s, actions, i) && OneFrozen(s, s', r, e) && FrozenAt(actions, i, e)
    ensures OriginInv(s', actions, i + 1)
  {
    assert HasOrigin(actions, i + 1, e);
    forall f | f in s'.sent ensures HasOrigin(actions, i + 1, f) {
      OriginLasts(actions, i, f);
    }
    forall q | q in Publishers(s') && Publishers(s')[q].out.Ready?
      ensures HasOrigin(actions, i + 1, Publishers(s')[q].out.event)
    {
      if q != r {
        OriginLasts(actions, i, Publishers(s)[q].out.event);
      }
    }
  }

  lemma StateKnowsItsSeq(s: Sys, r: nat)
    requires s.worker.Up? && ModeInv(s) && r in s.worker.view.requests
    ensures s.worker.view.requests[r].requestSeq == r
  {
    assert Tracked(s.worker.view, s.log[..s.worker.cursor], r);
  }

  lemma YieldFreezes(s: Sys, s': Sys, r: nat, event: ProviderEvent)
    requires Yields(s, s', r, event) && s.worker.view.requests[r].requestSeq == r
    ensures r in s'.worker.publishers && s'.worker.publishers[r].out.Ready?
    ensures var e := s'.worker.publishers[r].out.event;
            OneFrozen(s, s', r, e) && RefOf(e) == r && Carries(e.payload, event)
  {
    OutputCarries(s.worker.view.requests[r], event, s.worker.publishers[r].role.writer);
  }

  lemma FailFreezes(s: Sys, s': Sys, r: nat, code: int, dropped: seq<Json>)
    requires Fails(s, s', r, code, dropped) && s.worker.view.requests[r].requestSeq == r
    ensures r in s'.worker.publishers && s'.worker.publishers[r].out.Ready?
    ensures var e := s'.worker.publishers[r].out.event;
            OneFrozen(s, s', r, e) && RefOf(e) == r && SaysError(e.payload, code)
  {
    ErrorSays(s.worker.view.requests[r], code, false, false);
  }

  lemma RejectFreezes(s: Sys, s': Sys, r: nat, code: int)
    requires Rejects(s, s', r) && s.worker.view.requests[r].requestSeq == r
    requires code == if s.worker.publishers[r].role.Control? then s.worker.publishers[r].role.code else 60007
    ensures r in s'.worker.publishers && s'.worker.publishers[r].out.Ready?
    ensures var e := s'.worker.publishers[r].out.event;
            OneFrozen(s, s', r, e) && RefOf(e) == r && SaysError(e.payload, code)
  {
    ErrorSays(s.worker.view.requests[r], code, s.worker.publishers[r].role.Recovery?, s.worker.publishers[r].role.Control?);
  }

  lemma YieldKeepsOrigin(s: Sys, s': Sys, actions: seq<Action>, cfg: Config, i: nat, r: nat, event: ProviderEvent)
    requires i < |actions| && actions[i] == Yield(r, event) && Yields(s, s', r, event)
    requires Inv(s, cfg) && OriginInv(s, actions, i)
    ensures OriginInv(s', actions, i + 1)
  {
    StateKnowsItsSeq(s, r);
    YieldFreezes(s, s', r, event);
    OneFrozenKeeps(s, s', actions, i, r, s'.worker.publishers[r].out.event);
  }

  lemma FailKeepsOrigin(s: Sys, s': Sys, actions: seq<Action>, cfg: Config, i: nat, r: nat, code: int, dropped: seq<Json>)
    requires i < |actions| && actions[i] == Fail(r, code, dropped) && Fails(s, s', r, code, dropped)
    requires Inv(s, cfg) && OriginInv(s, actions, i)
    ensures OriginInv(s', actions, i + 1)
  {
    StateKnowsItsSeq(s, r);
    FailFreezes(s, s', r, code, dropped);
    OneFrozenKeeps(s, s', actions, i, r, s'.worker.publishers[r].out.event);
  }

  lemma RejectionIsReported(cfg: Config, s: Sys, s': Sys, r: nat)
    requires AdmissionInv(cfg, s) && Rejects(s, s', r)
    ensures s.worker.publishers[r].role.Control? ==> IsReportedError(s.worker.publishers[r].role.code)
  {
    assert RoleOk(cfg, s, r);
  }

  lemma RejectKeepsOrigin(s: Sys, s': Sys, actions: seq<Action>, cfg: Config, i: nat, r: nat)
    requires i < |actions| && actions[i] == Reject(r) && Rejects(s, s', r)
    requires Inv(s, cfg) && AdmissionInv(cfg, s) && OriginInv(s, actions, i)
    ensures OriginInv(s', actions, i + 1)
  {
    StateKnowsItsSeq(s, r);
    RejectionIsReported(cfg, s, s', r);
    var code := if s.worker.publishers[r].role.Control? then s.worker.publishers[r].role.code else 60007;
    RejectFreezes(s, s', r, code);
    OneFrozenKeeps(s, s', actions, i, r, s'.worker.publishers[r].out.event);
  }

  lemma OthersFreezeNothing(s: Sys, a: Action, s': Sys, cfg: Config)
    requires Next(s, a, s', cfg) && !a.Yield? && !a.Fail? && !a.Reject? && !a.Return? && !a.Quit?
    ensures NothingFrozen(s, s')
  {
    if a.Send? {
      assert Publishers(s)[a.r].out == Ready(s.worker.publishers[a.r].out.event);
    }
  }

  lemma DoneFreezesNothing(s: Sys, a: Action, s': Sys, cfg: Config)
    requires Next(s, a, s', cfg) && (a.Return? || a.Quit?)
    ensures NothingFrozen(s, s')
  {
    FinishFrame(s.worker, a.r);
  }

  predicate Freezes(a: Action) {
    a.Yield? || a.Fail? || a.Reject?
  }

  lemma FreezingStepKeepsOrigin(s: Sys, s': Sys, actions: seq<Action>, cfg: Config, i: nat)
    requires i < |actions| && Next(s, actions[i], s', cfg) && Freezes(actions[i])
    requires Inv(s, cfg) && AdmissionInv(cfg, s) && OriginInv(s, actions, i)
    ensures OriginInv(s', actions, i + 1)
  {
    match actions[i]
    case Yield(r, event) => YieldKeepsOrigin(s, s', actions, cfg, i, r, event);
    case Fail(r, code, dropped) => FailKeepsOrigin(s, s', actions, cfg, i, r, code, dropped);
    case Reject(r) => RejectKeepsOrigin(s, s', actions, cfg, i, r);
  }

  lemma OtherStepKeepsOrigin(s: Sys, s': Sys, actions: seq<Action>, cfg: Config, i: nat)
    requires i < |actions| && Next(s, actions[i], s', cfg) && !Freezes(actions[i]) && OriginInv(s, actions, i)
    ensures OriginInv(s', actions, i + 1)
  {
    if actions[i].Return? || actions[i].Quit? {
      DoneFreezesNothing(s, actions[i], s', cfg);
    } else {
      OthersFreezeNothing(s, actions[i], s', cfg);
    }
    NothingFrozenKeeps(s, s', actions, i);
  }

  lemma StepKeepsOrigin(s: Sys, s': Sys, actions: seq<Action>, cfg: Config, i: nat)
    requires i < |actions| && Next(s, actions[i], s', cfg)
    requires Inv(s, cfg) && AdmissionInv(cfg, s) && OriginInv(s, actions, i)
    ensures OriginInv(s', actions, i + 1)
  {
    if Freezes(actions[i]) {
      FreezingStepKeepsOrigin(s, s', actions, cfg, i);
    } else {
      OtherStepKeepsOrigin(s, s', actions, cfg, i);
    }
  }

  lemma StepAtKeepsOrigin(states: seq<Sys>, actions: seq<Action>, cfg: Config, i: nat)
    requires |states| == |actions| + 1 && i < |actions| && StepAt(states, actions, cfg, i)
    requires Inv(states[i], cfg) && AdmissionInv(cfg, states[i]) && OriginInv(states[i], actions, i)
    ensures OriginInv(states[i + 1], actions, i + 1)
  {
    StepKeepsOrigin(states[i], states[i + 1], actions, cfg, i);
  }

  lemma RunStepKeepsOrigin(states: seq<Sys>, actions: seq<Action>, cfg: Config, i: nat)
    requires Run(states, actions, cfg) && i < |actions| && OriginInv(states[i], actions, i)
    ensures OriginInv(states[i + 1], actions, i + 1)
  {
    RunKeepsInv(states, actions, cfg, i);
    RunKeepsAdmission(states, actions, cfg, i);
    StepAtKeepsOrigin(states, actions, cfg, i);
  }

  lemma {:induction false} RunKeepsOrigin(states: seq<Sys>, actions: seq<Action>, cfg: Config, i: nat)
    requires Run(states, actions, cfg) && i < |states|
    ensures OriginInv(states[i], actions, i)
  {
    if i > 0 {
      RunKeepsOrigin(states, actions, cfg, i - 1);
      RunStepKeepsOrigin(states, actions, cfg, i - 1);
    }
  }

  // ---------------------------------------------------------------- over runs

  /** Every output in the log was frozen by an action before: it says what the provider call of
      its request yielded, or reports an error. */
  lemma OutputsHaveTheirOrigin(states: seq<Sys>, actions: seq<Action>, cfg: Config, i: nat, e: Entry)
    requires Run(states, actions, cfg) && i < |states| && e in states[i].log && IsOutput(e)
    ensures HasOrigin(actions, i, e)
  {
    RunKeepsInv(states, actions, cfg, i);
    RunKeepsOrigin(states, actions, cfg, i);
  }

  /** A rejection says the reason that the log gives for it, and recovery says that the request
      was interrupted. */
  lemma RejectionSaysItsReason(states: seq<Sys>, actions: seq<Action>, cfg: Config, i: nat, r: nat)
    requires Run(states, actions, cfg) && i < |actions| && actions[i] == Reject(r)
    ensures IsRequest(states[i].log, r) && r in Publishers(states[i])
    ensures r in Publishers(states[i + 1]) && Publishers(states[i + 1])[r].out.Ready?
    ensures var e := Publishers(states[i + 1])[r].out.event;
            exists code ::
              && RefOf(e) == r && SaysError(e.payload, code)
              && if Publishers(states[i])[r].role.Recovery? then code == 60007
                 else RejectedFor(cfg, states[i].log, r, code)
  {
    RunKeepsInv(states, actions, cfg, i);
    assert StepAt(states, actions, cfg, i);
    assert PublisherInv(states[i], r);
    StateKnowsItsSeq(states[i], r);
    var role := Publishers(states[i])[r].role;
    var code := if role.Control? then role.code else 60007;
    if role.Control? {
      RejectionsHaveTheirReason(states, actions, cfg, i, r, code);
    }
    RejectFreezes(states[i], states[i + 1], r, code);
  }

  /** The provider call of `r` yielded this event before step `i`. */
  ghost predicate Yielded(actions: seq<Action>, i: nat, r: nat, event: ProviderEvent) {
    exists j: nat :: j < i && j < |actions| && actions[j] == Yield(r, event)
  }

  /** A result with a success status was yielded as such, and so was every end that is not
      interrupted: errors look like neither. */
  lemma SuccessIsYielded(states: seq<Sys>, actions: seq<Action>, cfg: Config, i: nat, r: nat, e: Entry)
    requires Run(states, actions, cfg) && i < |states| && e in states[i].log && IsOutput(e) && RefOf(e) == r
    ensures e.payload.InferResult? && e.payload.resultBody.Some? && e.payload.status < 60000 ==>
              Yielded(actions, i, r, Result(e.payload.status, e.payload.resultBody.value))
    ensures e.payload.InferResult? && e.payload.resultBody.None? ==>
              Yielded(actions, i, r, Headers(e.payload.status))
    ensures e.payload.InferEnd? && e.payload.endStatus.Completed? ==>
              Yielded(actions, i, r, ProviderEvent.Completed(e.payload.status, e.payload.endBody))
    ensures e.payload.InferEnd? && e.payload.endStatus.Failed? ==>
              e.payload.endBody.Some? && Yielded(actions, i, r, ProviderEvent.Failed(e.payload.status, e.payload.endBody.value))
  {
    OutputsHaveTheirOrigin(states, actions, cfg, i, e);
    var j: nat :| j < i && FrozenAt(actions, j, e);
    match actions[j]
    case Yield(q, event) => assert Yielded(actions, i, q, event);
    case _ =>
  }

  /** What one call yields fits its request: only an ordinary one has a result of its own, and
      only a streaming one has headers, appends and an end. */
  lemma YieldsFitTheRequest(
    states: seq<Sys>, actions: seq<Action>, cfg: Config, i: nat, r: nat, event: ProviderEvent)
    requires Run(states, actions, cfg) && i < |states| && Yielded(actions, i, r, event)
    ensures IsRequest(states[i].log, r)
    ensures event.Result? <==> !At(states[i].log, r).payload.streaming
  {
    var j: nat :| j < i && j < |actions| && actions[j] == Yield(r, event);
    RunKeepsInv(states, actions, cfg, j);
    assert StepAt(states, actions, cfg, j);
    YieldFits(states[j], states[j + 1], cfg, r, event);
    LogGrows(states, actions, cfg, j, i);
  }

  lemma YieldFits(s: Sys, s': Sys, cfg: Config, r: nat, event: ProviderEvent)
    requires Inv(s, cfg) && Yields(s, s', r, event)
    ensures IsRequest(s.log, r) && (event.Result? <==> !At(s.log, r).payload.streaming)
  {
    assert PublisherInv(s, r);
    ViewOf(s, r);
  }
}
