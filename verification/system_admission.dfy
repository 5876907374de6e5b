/** Which requests reach a provider, and with what; and why the others are refused. */
module SystemAdmission {
  import opened Protocol
  import opened WorkerView
  import opened ProviderEvents
  import opened System
  import opened SystemInvariant
  import opened SystemWorkerProof
  import opened SystemTheorems

  /** The request names this provider, or none and this is the default. */
  predicate Names(cfg: Config, e: Entry, name: string)
    requires e.payload.InferRequest?
  {
    e.payload.provider == Some(name) || (e.payload.provider.None? && name == cfg.defaultProvider)
  }

  /** Small enough, and for a provider that is configured. */
  ghost predicate Admissible(cfg: Config, e: Entry)
    requires e.payload.InferRequest?
  {
    e.payload.size <= cfg.maxPayloadBytes && exists name :: Names(cfg, e, name) && name in cfg.providers
  }

  /** The reason for a rejection, read off the log. */
  ghost predicate RejectedFor(cfg: Config, log: Log, r: nat, code: int)
    requires IsRequest(log, r)
  {
    var e := At(log, r);
    if !Original(log, r) then code == 60005
    else if e.payload.size > cfg.maxPayloadBytes then code == 60008
    else !Admissible(cfg, e) && code == 60009
  }

  /** As long as the request has no terminal, its state holds what its provider call needs. */
  ghost predicate Held(cfg: Config, v: View, r: nat, e: Entry)
    requires e.payload.InferRequest?
  {
    r in v.requests && v.requests[r].terminal.None? ==>
      && v.requests[r].body == Some(e.payload.body)
      && v.requests[r].provider.Some? && Names(cfg, e, v.requests[r].provider.value)
  }

  ghost predicate Admitted(cfg: Config, s: Sys, r: nat)
    requires s.worker.Up?
  {
    IsRequest(s.log, r) && Admissible(cfg, At(s.log, r)) && Held(cfg, s.worker.view, r, At(s.log, r))
  }

  ghost predicate Refused(cfg: Config, s: Sys, r: nat, code: int) {
    IsRequest(s.log, r) && RejectedFor(cfg, s.log, r, code)
  }

  ghost predicate QueuesOk(cfg: Config, s: Sys)
    requires s.worker.Up?
  {
    && (forall r :: r in s.worker.view.pending ==> Admitted(cfg, s, r))
    && (forall i :: 0 <= i < |s.worker.view.controls| ==>
          Refused(cfg, s, s.worker.view.controls[i].0, s.worker.view.controls[i].1))
  }

  ghost predicate RoleOk(cfg: Config, s: Sys, r: nat)
    requires s.worker.Up? && r in s.worker.publishers
  {
    match s.worker.publishers[r].role
    case Starting => Admitted(cfg, s, r)
    case Control(code) => Refused(cfg, s, r, code)
    case _ => true
  }

  ghost predicate CallsOk(cfg: Config, s: Sys) {
    forall r :: r in s.calls ==> IsRequest(s.log, r) && Admissible(cfg, At(s.log, r))
  }

  ghost predicate AdmissionInv(cfg: Config, s: Sys) {
    && CallsOk(cfg, s)
    && (s.worker.Up? ==> QueuesOk(cfg, s) && forall r :: r in s.worker.publishers ==> RoleOk(cfg, s, r))
  }

  // ---------------------------------------------------------------- steps that admit nothing

  lemma EntryKeeps(cfg: Config, s: Sys, s': Sys, e: Entry)
    requires AdmissionInv(cfg, s) && s' == s.(log := s.log + [e], nextUuid := s'.nextUuid)
    ensures AdmissionInv(cfg, s')
  {
    forall r: nat, code: int | Refused(cfg, s, r, code) ensures Refused(cfg, s', r, code) {
      OriginalExtends(s.log, s'.log, r);
    }
    forall r: nat | IsRequest(s.log, r) ensures IsRequest(s'.log, r) && At(s'.log, r) == At(s.log, r) {
      OriginalExtends(s.log, s'.log, r);
    }
    if s.worker.Up? {
      forall r | r in s'.worker.publishers ensures RoleOk(cfg, s', r) {
        assert RoleOk(cfg, s, r);
      }
    }
  }

  /** What is held for `r` is as before, or `r` has its terminal. */
  ghost predicate SameHold(v: View, v': View, r: nat) {
    r in v'.requests && v'.requests[r].terminal.None? ==>
      && r in v.requests && v.requests[r].terminal.None?
      && v'.requests[r].body == v.requests[r].body && v'.requests[r].provider == v.requests[r].provider
  }

  /** Log and calls are as before, the queues have lost something at most, and so have the
      publishers that have not begun a call. */
  ghost predicate NothingAdmitted(s: Sys, s': Sys) {
    && s'.log == s.log && s'.calls == s.calls
    && (s'.worker.Up? ==>
          && s.worker.Up?
          && (forall r :: r in s'.worker.view.pending ==>
                r in s.worker.view.pending && SameHold(s.worker.view, s'.worker.view, r))
          && (forall i :: 0 <= i < |s'.worker.view.controls| ==> s'.worker.view.controls[i] in s.worker.view.controls)
          && (forall r :: r in s'.worker.publishers ==> RoleFrom(s, s', r)))
  }

  /** The publisher of `r` was there before or took `r` off its queue, or it needs nothing. */
  ghost predicate RoleFrom(s: Sys, s': Sys, r: nat)
    requires s.worker.Up? && s'.worker.Up? && r in s'.worker.publishers
  {
    match s'.worker.publishers[r].role
    case Starting =>
      && SameHold(s.worker.view, s'.worker.view, r)
      && (r in s.worker.view.pending || (r in s.worker.publishers && s.worker.publishers[r].role.Starting?))
    case Control(code) =>
      || (r, code) in s.worker.view.controls
      || (r in s.worker.publishers && s.worker.publishers[r].role == Control(code))
    case _ => true
  }

  lemma NothingAdmittedKeeps(cfg: Config, s: Sys, s': Sys)
    requires AdmissionInv(cfg, s) && NothingAdmitted(s, s')
    ensures AdmissionInv(cfg, s')
  {
    if s'.worker.Up? {
      forall i | 0 <= i < |s'.worker.view.controls|
        ensures Refused(cfg, s', s'.worker.view.controls[i].0, s'.worker.view.controls[i].1)
      {
        ControlRefused(cfg, s, s'.worker.view.controls[i]);
      }
      forall r | r in s'.worker.publishers ensures RoleOk(cfg, s', r) {
        assert RoleFrom(s, s', r);
        RoleKeeps(cfg, s, s', r);
      }
    }
  }

  lemma ControlRefused(cfg: Config, s: Sys, control: (nat, int))
    requires s.worker.Up? && QueuesOk(cfg, s) && control in s.worker.view.controls
    ensures Refused(cfg, s, control.0, control.1)
  {
    var i :| 0 <= i < |s.worker.view.controls| && s.worker.view.controls[i] == control;
  }

  lemma RoleKeeps(cfg: Config, s: Sys, s': Sys, r: nat)
    requires s.worker.Up? && s'.worker.Up? && s'.log == s.log && QueuesOk(cfg, s)
    requires r in s.worker.publishers ==> RoleOk(cfg, s, r)
    requires r in s'.worker.publishers && RoleFrom(s, s', r)
    ensures RoleOk(cfg, s', r)
  {
    match s'.worker.publishers[r].role
    case Control(code) =>
      if (r, code) in s.worker.view.controls {
        ControlRefused(cfg, s, (r, code));
      }
    case _ =>
  }

  lemma HistoryQueuesNothing(v: View, cfg: Config, e: Entry, at: nat)
    requires Accept(v, cfg, e, at, true).Some?
    ensures Accept(v, cfg, e, at, true).value.pending == v.pending
    ensures Accept(v, cfg, e, at, true).value.controls == v.controls
  {
  }

  lemma ScanKeeps(s: Sys, s': Sys, cfg: Config)
    requires s.worker.Up? && ModeInv(s) && CallsOk(cfg, s) && Scans(s, s', cfg)
    ensures AdmissionInv(cfg, s')
  {
    if s'.worker.Up? {
      HistoryQueuesNothing(s.worker.view, cfg, s.log[s.worker.cursor], s.worker.cursor + 1);
    }
  }

  lemma QuietStepAdmitsNothing(s: Sys, a: Action, s': Sys, cfg: Config)
    requires Next(s, a, s', cfg) && (a.Plan? || a.RecoverNext? || a.Serve? || a.Stop? || a.Crash?)
    ensures NothingAdmitted(s, s')
  {
  }

  lemma ScheduleAdmitsNothing(s: Sys, s': Sys, cfg: Config)
    requires Schedules(s, s', cfg)
    ensures NothingAdmitted(s, s')
  {
    var pending := s.worker.view.pending;
    assert forall r :: r in pending[1..] ==> r in pending;
    assert pending[0] in pending;
  }

  lemma PickControlAdmitsNothing(s: Sys, s': Sys)
    requires PicksControl(s, s')
    ensures NothingAdmitted(s, s')
  {
    var controls := s.worker.view.controls;
    assert controls[0] in controls;
    assert forall i :: 0 <= i < |controls[1..]| ==> controls[1..][i] in controls;
  }

  lemma PublisherAdmitsNothing(s: Sys, a: Action, s': Sys, cfg: Config)
    requires Next(s, a, s', cfg) && (a.Yield? || a.Fail? || a.Reject? || a.Send?)
    ensures NothingAdmitted(s, s')
  {
  }

  lemma FinishAdmitsNothing(s: Sys, s': Sys, r: nat)
    requires s.worker.Up? && r in s.worker.publishers && r !in s.worker.view.pending
    requires s'.log == s.log && s'.calls == s.calls && s'.worker.Up?
    requires s'.worker.view == Finish(s.worker, r).view && s'.worker.publishers == s.worker.publishers - {r}
    ensures NothingAdmitted(s, s')
  {
    FinishFrame(s.worker, r);
  }

  lemma ReturnAdmitsNothing(s: Sys, s': Sys, r: nat, q: nat)
    requires Returns(s, s', r, q) && r !in s.worker.view.pending
    ensures NothingAdmitted(s, s')
  {
    var role := s.worker.publishers[r].role;
    if !(role.Calling? && !role.failing) {
      FinishFrame(s.worker, r);
      FinishAdmitsNothing(s, s', r);
    }
  }

  lemma QuitAdmitsNothing(s: Sys, s': Sys, r: nat)
    requires Quits(s, s', r) && r !in s.worker.view.pending
    ensures NothingAdmitted(s, s')
  {
    if s'.worker.Up? {
      FinishFrame(s.worker, r);
      FinishAdmitsNothing(s, s', r);
    }
  }

  lemma PublisherIsNotPending(s: Sys, r: nat)
    requires s.worker.Up? && PendingInv(s) && r in s.worker.publishers
    ensures r !in s.worker.view.pending
  {
  }

  // ---------------------------------------------------------------- the steps that matter

  /** An accepted message leaves what is held for every other request as it was, or ends it. */
  lemma AcceptHolds(v: View, cfg: Config, e: Entry, at: nat, r: nat)
    requires Accept(v, cfg, e, at, false).Some? && r != at
    ensures SameHold(v, Accept(v, cfg, e, at, false).value, r)
  {
  }

  /** Where a live request goes: to the providers exactly when it is an admissible original,
      and else to the rejections, with its reason. */
  lemma LiveRequestIsRouted(v: View, cfg: Config, e: Entry, at: nat)
    requires e.payload.InferRequest? && at !in v.requests
    ensures var next := AcceptRequest(v, cfg, e, at, false);
            if Key(e) !in v.originals && Admissible(cfg, e)
            then next.pending == v.pending + [at] && next.controls == v.controls && Held(cfg, next, at, e)
            else next.pending == v.pending
                 && exists code ::
                      && next.controls == v.controls + [(at, code)]
                      && code == (if Key(e) in v.originals then 60005
                                  else if e.payload.size > cfg.maxPayloadBytes then 60008 else 60009)
  {
    var name := ChosenProvider(cfg, e.payload);
    assert Names(cfg, e, name);
    assert forall other :: Names(cfg, e, other) ==> other == name;
  }

  /** The Worker has read the live request `r`. */
  ghost predicate TookRequest(cfg: Config, s: Sys, s': Sys, r: nat) {
    && s.worker.Up? && s'.worker.Up? && r == s.worker.cursor + 1 && IsRequest(s.log, r)
    && s'.log == s.log && s'.calls == s.calls && s'.worker.publishers == s.worker.publishers
    && s'.worker.view == AcceptRequest(s.worker.view, cfg, At(s.log, r), r, false)
    && r !in s.worker.view.requests && r !in s.worker.view.pending && r !in s.worker.publishers
    && (Key(At(s.log, r)) in s.worker.view.originals <==> !Original(s.log, r))
  }

  lemma NewRequestIsNew(s: Sys, cfg: Config)
    requires s.worker.Up? && ModeInv(s) && PendingInv(s) && PublishersInv(s) && s.worker.mode.Serving?
    requires s.worker.cursor < |s.log| && s.log[s.worker.cursor].payload.InferRequest?
    ensures var r := s.worker.cursor + 1;
            && IsRequest(s.log, r) && At(s.log, r) == s.log[s.worker.cursor]
            && r !in s.worker.view.requests && r !in s.worker.view.pending && r !in s.worker.publishers
            && (Key(At(s.log, r)) in s.worker.view.originals <==> !Original(s.log, r))
  {
    NewRequestClassified(s, cfg);
    PublishersBelowHorizon(s);
  }

  lemma ReadIsAccept(s: Sys, s': Sys, cfg: Config)
    requires s.worker.Up? && s.worker.cursor < |s.log| && s.log[s.worker.cursor].payload.InferRequest?
    requires Reads(s, s', cfg) && s'.worker.Up?
    ensures s.worker.mode.Serving? && s'.log == s.log && s'.calls == s.calls
    ensures s'.worker.publishers == s.worker.publishers
    ensures s'.worker.view == AcceptRequest(s.worker.view, cfg, s.log[s.worker.cursor], s.worker.cursor + 1, false)
  {
  }

  lemma ReadTookRequest(s: Sys, s': Sys, cfg: Config)
    requires s.worker.Up? && s.worker.cursor < |s.log| && s.log[s.worker.cursor].payload.InferRequest?
    requires Inv(s, cfg) && Reads(s, s', cfg) && s'.worker.Up?
    ensures TookRequest(cfg, s, s', s.worker.cursor + 1)
  {
    ReadIsAccept(s, s', cfg);
    NewRequestIsNew(s, cfg);
  }

  lemma RequestHolds(cfg: Config, s: Sys, s': Sys, n: nat, r: nat)
    requires TookRequest(cfg, s, s', n) && r != n
    ensures SameHold(s.worker.view, s'.worker.view, r)
  {
  }

  lemma RequestKeepsQueues(cfg: Config, s: Sys, s': Sys, n: nat)
    requires TookRequest(cfg, s, s', n) && QueuesOk(cfg, s)
    ensures QueuesOk(cfg, s')
  {
    var v, v' := s.worker.view, s'.worker.view;
    LiveRequestIsRouted(v, cfg, At(s.log, n), n);
    forall r | r in v'.pending ensures Admitted(cfg, s', r) {
      if r in v.pending {
        assert Admitted(cfg, s, r);
        RequestHolds(cfg, s, s', n, r);
      }
    }
    forall i | 0 <= i < |v'.controls| ensures Refused(cfg, s', v'.controls[i].0, v'.controls[i].1) {
      if i < |v.controls| {
        assert v'.controls[i] == v.controls[i];
        assert Refused(cfg, s, v.controls[i].0, v.controls[i].1);
      }
    }
  }

  lemma ReadRequestKeeps(cfg: Config, s: Sys, s': Sys, n: nat)
    requires TookRequest(cfg, s, s', n) && AdmissionInv(cfg, s)
    ensures AdmissionInv(cfg, s')
  {
    RequestKeepsQueues(cfg, s, s', n);
    forall r | r in s'.worker.publishers ensures RoleOk(cfg, s', r) {
      assert RoleOk(cfg, s, r);
      RequestHolds(cfg, s, s', n, r);
    }
  }

  /** The Worker has read a live reply. */
  ghost predicate TookReply(s: Sys, s': Sys) {
    && s.worker.Up? && s'.worker.Up? && s'.log == s.log && s'.calls == s.calls
    && s'.worker.publishers == s.worker.publishers
    && s'.worker.view.pending == s.worker.view.pending && s'.worker.view.controls == s.worker.view.controls
    && (forall r :: r in s.worker.view.pending || r in s.worker.publishers ==>
          SameHold(s.worker.view, s'.worker.view, r))
  }

  lemma ReplyAdmitsNothing(s: Sys, s': Sys)
    requires TookReply(s, s')
    ensures NothingAdmitted(s, s')
  {
  }

  lemma ReadTookReply(s: Sys, s': Sys, cfg: Config)
    requires s.worker.Up? && PublishersInv(s) && PendingInv(s) && s'.worker.Up? && Took(s, s', s'.worker.view)
    requires s.worker.mode.Serving? && !s.log[s.worker.cursor].payload.InferRequest?
    requires Accept(s.worker.view, cfg, s.log[s.worker.cursor], s.worker.cursor + 1, false) == Some(s'.worker.view)
    ensures TookReply(s, s')
  {
    var v, e, n := s.worker.view, s.log[s.worker.cursor], s.worker.cursor + 1;
    FramedAs(v, cfg, e, n, s'.worker.view);
    PublishersBelowHorizon(s);
    forall r | r in v.pending || r in s.worker.publishers ensures SameHold(v, s'.worker.view, r) {
      AcceptHolds(v, cfg, e, n, r);
    }
  }

  lemma ReadReplyKeeps(s: Sys, s': Sys, cfg: Config)
    requires s.worker.Up? && s.worker.cursor < |s.log| && !s.log[s.worker.cursor].payload.InferRequest?
    requires Inv(s, cfg) && AdmissionInv(cfg, s) && Reads(s, s', cfg) && s'.worker.Up?
    ensures AdmissionInv(cfg, s')
  {
    ReadUp(s, s', cfg);
    ReadTookReply(s, s', cfg);
    ReplyAdmitsNothing(s, s');
    NothingAdmittedKeeps(cfg, s, s');
  }

  lemma ReadNewKeeps(s: Sys, s': Sys, cfg: Config)
    requires s.worker.Up? && s.worker.cursor < |s.log| && s.log[s.worker.cursor].payload.InferRequest?
    requires Inv(s, cfg) && AdmissionInv(cfg, s) && Reads(s, s', cfg) && s'.worker.Up?
    ensures AdmissionInv(cfg, s')
  {
    ReadTookRequest(s, s', cfg);
    ReadRequestKeeps(cfg, s, s', s.worker.cursor + 1);
  }

  lemma ReadKeeps(s: Sys, s': Sys, cfg: Config)
    requires s.worker.Up? && s.worker.cursor < |s.log|
    requires Inv(s, cfg) && AdmissionInv(cfg, s) && Reads(s, s', cfg)
    ensures AdmissionInv(cfg, s')
  {
    if s'.worker.Down? {
      ReadDown(s, s', cfg);
    } else if s.log[s.worker.cursor].payload.InferRequest? {
      ReadNewKeeps(s, s', cfg);
    } else {
      ReadReplyKeeps(s, s', cfg);
    }
  }

  lemma StartCallKeeps(s: Sys, s': Sys, r: nat, cfg: Config)
    requires Inv(s, cfg) && AdmissionInv(cfg, s) && StartsCall(s, s', r)
    ensures AdmissionInv(cfg, s')
  {
    assert RoleOk(cfg, s, r) && PublisherInv(s, r);
    forall q | q in s'.worker.view.pending ensures Admitted(cfg, s', q) {
      assert Admitted(cfg, s, q) && q != r;
    }
    forall q | q in s'.worker.publishers ensures RoleOk(cfg, s', q) {
      assert RoleOk(cfg, s, q);
    }
  }

  lemma TaskStepAdmitsNothing(s: Sys, a: Action, s': Sys, cfg: Config)
    requires s.worker.Up? && PendingInv(s) && Next(s, a, s', cfg)
    requires a.Schedule? || a.PickControl? || ByPublisher(a)
    ensures NothingAdmitted(s, s')
  {
    match a
    case Schedule => ScheduleAdmitsNothing(s, s', cfg);
    case PickControl => PickControlAdmitsNothing(s, s');
    case Return(r, q) =>
      PublisherIsNotPending(s, r);
      ReturnAdmitsNothing(s, s', r, q);
    case Quit(r) =>
      PublisherIsNotPending(s, r);
      QuitAdmitsNothing(s, s', r);
    case _ => PublisherAdmitsNothing(s, a, s', cfg);
  }

  lemma BootKeeps(cfg: Config, s: Sys, s': Sys)
    requires CallsOk(cfg, s) && Boots(s, s')
    ensures AdmissionInv(cfg, s')
  {
  }

  lemma StepKeepsAdmission(s: Sys, a: Action, s': Sys, cfg: Config)
    requires Inv(s, cfg) && AdmissionInv(cfg, s) && Next(s, a, s', cfg)
    ensures AdmissionInv(cfg, s')
  {
    if a.MemberPublish? || a.Commit? {
      EntryKeeps(cfg, s, s', a.e);
    } else if a.Boot? {
      BootKeeps(cfg, s, s');
    } else if a.Scan? {
      ScanKeeps(s, s', cfg);
    } else if a.Read? {
      ReadKeeps(s, s', cfg);
    } else if a.StartCall? {
      StartCallKeeps(s, s', a.r, cfg);
    } else if a.Schedule? || a.PickControl? || ByPublisher(a) {
      TaskStepAdmitsNothing(s, a, s', cfg);
      NothingAdmittedKeeps(cfg, s, s');
    } else {
      QuietStepAdmitsNothing(s, a, s', cfg);
      NothingAdmittedKeeps(cfg, s, s');
    }
  }

  lemma {:induction false} RunKeepsAdmission(states: seq<Sys>, actions: seq<Action>, cfg: Config, i: nat)
    requires Run(states, actions, cfg) && i < |states|
    ensures AdmissionInv(cfg, states[i])
  {
    if i > 0 {
      RunKeepsAdmission(states, actions, cfg, i - 1);
      RunKeepsInv(states, actions, cfg, i - 1);
      assert StepAt(states, actions, cfg, i - 1);
      StepKeepsAdmission(states[i - 1], actions[i - 1], states[i], cfg);
    }
  }

  // ---------------------------------------------------------------- over runs

  /** Whatever reaches a provider is within the size limit and for a configured provider. */
  lemma CallsAreAdmissible(states: seq<Sys>, actions: seq<Action>, cfg: Config, i: nat, r: nat)
    requires Run(states, actions, cfg) && i < |states| && r in states[i].calls
    ensures IsRequest(states[i].log, r) && Admissible(cfg, At(states[i].log, r))
  {
    RunKeepsAdmission(states, actions, cfg, i);
  }

  /** And it reaches it with its own body, at the provider it names or else the default. */
  lemma CallGetsItsRequest(states: seq<Sys>, actions: seq<Action>, cfg: Config, i: nat, r: nat)
    requires Run(states, actions, cfg) && i < |actions| && actions[i] == StartCall(r)
    ensures states[i].worker.Up? && r in states[i].worker.view.requests && IsRequest(states[i].log, r)
    ensures var st, e := states[i].worker.view.requests[r], At(states[i].log, r);
            && st.body == Some(e.payload.body)
            && st.provider.Some? && Names(cfg, e, st.provider.value) && st.provider.value in cfg.providers
  {
    RunKeepsAdmission(states, actions, cfg, i);
    assert StepAt(states, actions, cfg, i);
    assert RoleOk(cfg, states[i], r);
    var e := At(states[i].log, r);
    assert forall a, b :: Names(cfg, e, a) && Names(cfg, e, b) ==> a == b;
  }

  /** A rejection is published with the reason the log gives for it. */
  lemma RejectionsHaveTheirReason(states: seq<Sys>, actions: seq<Action>, cfg: Config, i: nat, r: nat, code: int)
    requires Run(states, actions, cfg) && i < |actions| && actions[i] == Reject(r)
    requires states[i].worker.Up? && r in states[i].worker.publishers
    requires states[i].worker.publishers[r].role == Control(code)
    ensures IsRequest(states[i].log, r) && RejectedFor(cfg, states[i].log, r, code)
  {
    RunKeepsAdmission(states, actions, cfg, i);
    assert RoleOk(cfg, states[i], r);
  }

  /** A live request is queued for a provider exactly when it is the first with its key and
      admissible, and queued for rejection otherwise. */
  lemma RequestsAreRouted(states: seq<Sys>, actions: seq<Action>, cfg: Config, i: nat)
    requires Run(states, actions, cfg) && i < |actions| && actions[i].Read?
    requires states[i].worker.Up? && states[i].worker.cursor < |states[i].log|
    requires states[i].log[states[i].worker.cursor].payload.InferRequest?
    ensures var r := states[i].worker.cursor + 1;
            && states[i + 1].worker.Up? && IsRequest(states[i].log, r)
            && Routed(cfg, states[i], states[i + 1], r)
  {
    RunKeepsInv(states, actions, cfg, i);
    assert StepAt(states, actions, cfg, i);
    StepIsRouted(states, actions, cfg, i);
  }

  lemma StepIsRouted(states: seq<Sys>, actions: seq<Action>, cfg: Config, i: nat)
    requires |states| == |actions| + 1 && i < |actions| && Inv(states[i], cfg)
    requires actions[i].Read? && StepAt(states, actions, cfg, i)
    requires states[i].worker.Up? && states[i].worker.cursor < |states[i].log|
    requires states[i].log[states[i].worker.cursor].payload.InferRequest?
    ensures var r := states[i].worker.cursor + 1;
            && states[i + 1].worker.Up? && IsRequest(states[i].log, r)
            && Routed(cfg, states[i], states[i + 1], r)
  {
    ReadIsRouted(states[i], states[i + 1], cfg);
  }

  lemma ReadIsRouted(s: Sys, s': Sys, cfg: Config)
    requires s.worker.Up? && s.worker.cursor < |s.log| && s.log[s.worker.cursor].payload.InferRequest?
    requires Inv(s, cfg) && Reads(s, s', cfg)
    ensures var r := s.worker.cursor + 1; s'.worker.Up? && IsRequest(s.log, r) && Routed(cfg, s, s', r)
  {
    RequestIsRead(s, s', cfg);
    ReadTookRequest(s, s', cfg);
    TookIsRouted(cfg, s, s', s.worker.cursor + 1);
  }

  /** The live request is queued for a provider exactly when it is the first with its key and
      admissible, and queued for rejection, with the reason, otherwise. */
  ghost predicate Routed(cfg: Config, s: Sys, s': Sys, r: nat)
    requires s'.worker.Up? && IsRequest(s.log, r)
  {
    && (r in s'.worker.view.pending <==> Original(s.log, r) && Admissible(cfg, At(s.log, r)))
    && (r !in s'.worker.view.pending ==>
          exists code :: (r, code) in s'.worker.view.controls && RejectedFor(cfg, s.log, r, code))
  }

  lemma RequestIsRead(s: Sys, s': Sys, cfg: Config)
    requires s.worker.Up? && s.worker.cursor < |s.log| && s.log[s.worker.cursor].payload.InferRequest?
    requires Reads(s, s', cfg)
    ensures s'.worker.Up?
  {
  }

  lemma TookIsRouted(cfg: Config, s: Sys, s': Sys, r: nat)
    requires TookRequest(cfg, s, s', r)
    ensures Routed(cfg, s, s', r)
  {
    LiveRequestIsRouted(s.worker.view, cfg, At(s.log, r), r);
    if r !in s'.worker.view.pending {
      var code :| s'.worker.view.controls == s.worker.view.controls + [(r, code)]
                  && code == (if Key(At(s.log, r)) in s.worker.view.originals then 60005
                              else if At(s.log, r).payload.size > cfg.maxPayloadBytes then 60008 else 60009);
      assert (r, code) in s'.worker.view.controls && RejectedFor(cfg, s.log, r, code);
    }
  }
}
