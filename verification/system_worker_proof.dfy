/** The Worker moves: recovery, reading, scheduling, and the end of a publisher. */
module SystemWorkerProof {
  import opened Protocol
  import opened Progress
  import opened WorkerView
  import opened ProviderEvents
  import opened System
  import opened SystemInvariant

  /** Nothing but the Worker changes. */
  ghost predicate Quiet(s: Sys, s': Sys) {
    s' == s.(worker := s'.worker)
  }

  /** Publishers only disappear or become idle. */
  ghost predicate NoNewEvents(s: Sys, s': Sys) {
    forall r :: r in Publishers(s') && !Publishers(s')[r].out.Idle? ==>
      r in Publishers(s) && Publishers(s')[r].out == Publishers(s)[r].out
  }

  lemma QuietKeepsGlobals(s: Sys, s': Sys, cfg: Config)
    requires Inv(s, cfg) && Quiet(s, s') && NoNewEvents(s, s')
    requires Horizon(s) <= Horizon(s') <= |s.log|
    ensures UuidInv(s') && SentInv(s')
    ensures AllSound(s')
  {
    forall r | r in Publishers(s') && Publishers(s')[r].out.Ready?
      ensures UnusedUuid(s', Publishers(s')[r].out.event)
    {
      assert UnusedUuid(s, Publishers(s)[r].out.event);
    }
    forall r: nat | IsRequest(s'.log, r) ensures Sound(s', r) {
      assert Sound(s, r);
    }
  }

  /** A publisher that is not touched keeps what holds of it. */
  lemma PublisherFrame(s: Sys, s': Sys, r: nat)
    requires Quiet(s, s') && s.worker.Up? && s'.worker.Up? && r in s.worker.publishers
    requires PublisherInv(s, r)
    requires r in s'.worker.publishers && s'.worker.publishers[r] == s.worker.publishers[r]
    requires s'.worker.mode == s.worker.mode && s'.worker.target == s.worker.target && Horizon(s) <= Horizon(s')
    requires r in s'.worker.view.requests && s'.worker.view.requests[r].phase == s.worker.view.requests[r].phase
    ensures PublisherInv(s', r)
  {
    if s.worker.publishers[r].role.Calling? {
      assert CallInv(s', r, s.worker.publishers[r]);
    }
  }

  // ---------------------------------------------------------------- down and up again

  lemma CrashKeepsInv(s: Sys, s': Sys, cfg: Config)
    requires Inv(s, cfg) && s.worker.Up? && s' == s.(worker := Down)
    ensures Inv(s', cfg)
  {
    QuietKeepsGlobals(s, s', cfg);
  }

  lemma StopKeepsWorker(s: Sys, s': Sys, cfg: Config)
    requires Stops(s, s') && WorkerInv(s, cfg)
    ensures WorkerInv(s', cfg)
  {
    assert Slots(s'.worker) == Slots(s.worker);
    assert PublishersInv(s') by {
      forall r | r in s'.worker.publishers ensures PublisherInv(s', r) {
        PublisherFrame(s, s', r);
      }
    }
  }

  lemma StopKeepsInv(s: Sys, s': Sys, cfg: Config)
    requires Inv(s, cfg) && Stops(s, s')
    ensures Inv(s', cfg)
  {
    QuietKeepsGlobals(s, s', cfg);
    StopKeepsWorker(s, s', cfg);
  }

  lemma BootKeepsInv(s: Sys, s': Sys, cfg: Config)
    requires Inv(s, cfg) && Boots(s, s')
    ensures Inv(s', cfg)
  {
    QuietKeepsGlobals(s, s', cfg);
    assert s'.log[..0] == [];
    assert Slots(s'.worker) == {};
  }

  lemma SeenStep(s: Sys)
    requires s.worker.Up? && s.worker.cursor < |s.log|
    ensures s.log[..s.worker.cursor + 1] == s.log[..s.worker.cursor] + [s.log[s.worker.cursor]]
  {
  }

  lemma ScanKeepsMode(s: Sys, s': Sys, cfg: Config)
    requires s.worker.Up? && ModeInv(s) && RunningInv(s, cfg) && Scans(s, s', cfg) && s'.worker.Up?
    ensures ModeInv(s') && RunningInv(s', cfg) && PendingInv(s') && ControlsInv(s')
  {
    var w := s.worker;
    SeenStep(s);
    AcceptTracks(w.view, cfg, s.log[..w.cursor], s.log[w.cursor], true);
    AcceptFrame(w.view, cfg, s.log[w.cursor], w.cursor + 1, true);
    assert Slots(s'.worker) == Slots(s.worker);
  }

  lemma ScanKeepsInv(s: Sys, s': Sys, cfg: Config)
    requires Inv(s, cfg) && Scans(s, s', cfg)
    ensures Inv(s', cfg)
  {
    if s'.worker.Down? {
      CrashKeepsInv(s, s', cfg);
    } else {
      QuietKeepsGlobals(s, s', cfg);
      ScanKeepsMode(s, s', cfg);
    }
  }

  /** What `_accept` leaves alone: whether a task runs for a request, and the queues but
      for the new request. */
  ghost predicate AcceptFramed(v: View, next: View, e: Entry, at: nat, historical: bool) {
    && next.running == v.running
    && (historical || !e.payload.InferRequest? ==> next.pending == v.pending && next.controls == v.controls)
    && (forall r :: r in v.requests && v.requests[r].phase.Running? ==> r in next.requests)
    && (forall r :: r in next.requests && r !in v.requests ==> r == at && e.payload.InferRequest?)
    && (forall r :: r in next.requests && r in v.requests ==> next.requests[r].phase == v.requests[r].phase)
  }

  lemma AcceptFrame(v: View, cfg: Config, e: Entry, at: nat, historical: bool)
    requires Accept(v, cfg, e, at, historical).Some?
    ensures AcceptFramed(v, Accept(v, cfg, e, at, historical).value, e, at, historical)
  {
  }

  /** The Worker has taken the entry at its cursor. */
  ghost predicate Took(s: Sys, s': Sys, next: View) {
    && s.worker.Up? && s.worker.cursor < |s.log|
    && s' == s.(worker := s.worker.(view := next, cursor := s.worker.cursor + 1))
  }

  // ---------------------------------------------------------------- recovery

  lemma PlanKeepsInv(s: Sys, s': Sys, todo: seq<nat>, cfg: Config)
    requires Inv(s, cfg) && Plans(s, s', todo)
    ensures Inv(s', cfg)
  {
    QuietKeepsGlobals(s, s', cfg);
    var w := s.worker;
    assert Slots(s'.worker) == Slots(s.worker);
    forall r: nat | IsRequest(s.log, r) && r <= w.target && r !in todo ensures Decided(s', r) {
      var seen := s.log[..w.cursor];
      assert At(seen, r) == At(s.log, r);
      assert Tracked(w.view, seen, r);
      TrackStable(seen, s.log, r);
    }
  }

  lemma RecoveredIsRequest(s: Sys, r: nat)
    requires s.worker.Up? && ModeInv(s) && r in s.worker.view.requests
    ensures IsRequest(s.log, r) && r <= s.worker.cursor
  {
    var seen := s.log[..s.worker.cursor];
    assert Tracked(s.worker.view, seen, r);
    assert At(seen, r) == At(s.log, r);
  }

  lemma RecoverNextKeepsWorker(s: Sys, s': Sys, cfg: Config)
    requires RecoversNext(s, s') && ModeInv(s) && PendingInv(s) && ControlsInv(s) && RunningInv(s, cfg)
    ensures WorkerInv(s', cfg)
  {
    var r := s.worker.mode.todo[0];
    RecoveredIsRequest(s, r);
    assert s'.worker.publishers == map[r := Publisher(Recovery, Idle)];
    assert Slots(s'.worker) == Slots(s.worker);
    assert ModeInv(s');
    assert PendingInv(s') && ControlsInv(s');
    assert PublisherInv(s', r);
  }

  lemma RecoverNextKeepsInv(s: Sys, s': Sys, cfg: Config)
    requires Inv(s, cfg) && RecoversNext(s, s')
    ensures Inv(s', cfg)
  {
    QuietKeepsGlobals(s, s', cfg);
    RecoverNextKeepsWorker(s, s', cfg);
  }

  lemma ServeKeepsInv(s: Sys, s': Sys, cfg: Config)
    requires Inv(s, cfg) && Serves(s, s')
    ensures Inv(s', cfg)
  {
    QuietKeepsGlobals(s, s', cfg);
    assert Slots(s'.worker) == Slots(s.worker);
  }

  // ---------------------------------------------------------------- reading and scheduling

  lemma ReadKeepsMode(s: Sys, s': Sys, cfg: Config)
    requires s.worker.Up? && ModeInv(s) && RunningInv(s, cfg) && Reads(s, s', cfg) && s'.worker.Up?
    ensures ModeInv(s') && RunningInv(s', cfg)
  {
    var w := s.worker;
    SeenStep(s);
    AcceptTracks(w.view, cfg, s.log[..w.cursor], s.log[w.cursor], false);
    AcceptFrame(w.view, cfg, s.log[w.cursor], w.cursor + 1, false);
    assert Slots(s'.worker) == Slots(s.worker);
  }

  lemma ReadKeepsPublishers(s: Sys, s': Sys, next: View)
    requires Took(s, s', next) && s.worker.mode.Serving?
    requires AcceptFramed(s.worker.view, next, s.log[s.worker.cursor], s.worker.cursor + 1, false)
    requires PublishersInv(s)
    ensures PublishersInv(s')
  {
    forall r | r in s'.worker.publishers ensures PublisherInv(s', r) {
      assert PublisherInv(s, r);
      PublisherFrame(s, s', r);
    }
  }

  lemma ReadReplyKeepsQueues(s: Sys, s': Sys, next: View)
    requires Took(s, s', next) && s.worker.mode.Serving? && PendingInv(s) && ControlsInv(s)
    requires AcceptFramed(s.worker.view, next, s.log[s.worker.cursor], s.worker.cursor + 1, false)
    requires !s.log[s.worker.cursor].payload.InferRequest?
    ensures PendingInv(s') && ControlsInv(s')
  {
    assert Horizon(s') == Horizon(s) + 1;
  }

  lemma TookKeepsWorker(s: Sys, s': Sys, next: View, cfg: Config)
    requires Took(s, s', next) && s.worker.mode.Serving? && WorkerInv(s, cfg)
    requires ModeInv(s') && RunningInv(s', cfg)
    requires AcceptFramed(s.worker.view, next, s.log[s.worker.cursor], s.worker.cursor + 1, false)
    requires s.log[s.worker.cursor].payload.InferRequest? ==> PendingInv(s') && ControlsInv(s')
    ensures WorkerInv(s', cfg)
  {
    ReadKeepsPublishers(s, s', next);
    if !s.log[s.worker.cursor].payload.InferRequest? {
      ReadReplyKeepsQueues(s, s', next);
    }
  }

  lemma ReadKeepsQueues(s: Sys, s': Sys, cfg: Config)
    requires s.worker.Up? && SentInv(s) && WorkerInv(s, cfg) && Reads(s, s', cfg) && s'.worker.Up?
    ensures s.log[s.worker.cursor].payload.InferRequest? ==> PendingInv(s') && ControlsInv(s')
  {
    if s.log[s.worker.cursor].payload.InferRequest? {
      ReadRequestKeepsQueues(s, s', cfg);
    }
  }

  lemma TookKeepsInv(s: Sys, s': Sys, next: View, cfg: Config)
    requires Inv(s, cfg) && Took(s, s', next) && s.worker.mode.Serving?
    requires ModeInv(s') && RunningInv(s', cfg)
    requires AcceptFramed(s.worker.view, next, s.log[s.worker.cursor], s.worker.cursor + 1, false)
    requires s.log[s.worker.cursor].payload.InferRequest? ==> PendingInv(s') && ControlsInv(s')
    ensures Inv(s', cfg)
  {
    QuietKeepsGlobals(s, s', cfg);
    TookKeepsWorker(s, s', next, cfg);
  }

  lemma ReadUp(s: Sys, s': Sys, cfg: Config)
    requires Reads(s, s', cfg) && s'.worker.Up?
    ensures s.worker.mode.Serving? && Took(s, s', s'.worker.view)
    ensures Accept(s.worker.view, cfg, s.log[s.worker.cursor], s.worker.cursor + 1, false) == Some(s'.worker.view)
  {
  }

  lemma ReadDown(s: Sys, s': Sys, cfg: Config)
    requires Reads(s, s', cfg) && s'.worker.Down?
    ensures s.worker.Up? && s' == s.(worker := Down)
  {
  }

  lemma FramedAs(v: View, cfg: Config, e: Entry, at: nat, next: View)
    requires Accept(v, cfg, e, at, false) == Some(next)
    ensures AcceptFramed(v, next, e, at, false)
  {
    AcceptFrame(v, cfg, e, at, false);
  }

  lemma ReadUpKeepsInv(s: Sys, s': Sys, cfg: Config)
    requires Inv(s, cfg) && Reads(s, s', cfg) && s'.worker.Up?
    ensures Inv(s', cfg)
  {
    ReadUp(s, s', cfg);
    FramedAs(s.worker.view, cfg, s.log[s.worker.cursor], s.worker.cursor + 1, s'.worker.view);
    ReadKeepsMode(s, s', cfg);
    ReadKeepsQueues(s, s', cfg);
    TookKeepsInv(s, s', s'.worker.view, cfg);
  }

  lemma ReadKeepsInv(s: Sys, s': Sys, cfg: Config)
    requires Inv(s, cfg) && Reads(s, s', cfg)
    ensures Inv(s', cfg)
  {
    if s'.worker.Down? {
      ReadDown(s, s', cfg);
      CrashKeepsInv(s, s', cfg);
    } else {
      ReadUpKeepsInv(s, s', cfg);
    }
  }

  /** A request that is read for the first time was not worked on before. */
  lemma NewRequestUntouched(s: Sys)
    requires SentInv(s) && s.worker.Up? && s.worker.mode.Serving?
    ensures Untouched(s, s.worker.cursor + 1)
  {
  }

  /** A live request is classified as every incarnation classifies it. */
  lemma NewRequestClassified(s: Sys, cfg: Config)
    requires s.worker.Up? && ModeInv(s) && s.worker.cursor < |s.log|
    requires s.log[s.worker.cursor].payload.InferRequest?
    ensures IsRequest(s.log, s.worker.cursor + 1)
    ensures s.worker.cursor + 1 !in s.worker.view.requests
    ensures Key(s.log[s.worker.cursor]) in s.worker.view.originals <==> !Original(s.log, s.worker.cursor + 1)
  {
    var w, e, n := s.worker, s.log[s.worker.cursor], s.worker.cursor + 1;
    var seen := s.log[..w.cursor];
    SeenStep(s);
    assert At(s.log, n) == e;
    DuplicateIsClaimed(seen, e);
    OriginalExtends(seen + [e], s.log, n);
    assert Tracked(w.view, seen, n);
  }

  /** A live request waits in exactly one queue; an original one may wait for a call. */
  ghost predicate Enqueued(v: View, next: View, n: nat, duplicate: bool) {
    && (|| (!duplicate && next.pending == v.pending + [n] && next.controls == v.controls)
        || (next.pending == v.pending && exists code :: next.controls == v.controls + [(n, code)]))
    && (forall r :: r in next.requests && r != n ==> r in v.requests && next.requests[r] == v.requests[r])
    && (n in next.requests ==> next.requests[n].phase.Pending?)
  }

  lemma AcceptEnqueues(v: View, cfg: Config, e: Entry, n: nat)
    requires e.payload.InferRequest? && n !in v.requests
    ensures Accept(v, cfg, e, n, false).Some?
    ensures Enqueued(v, Accept(v, cfg, e, n, false).value, n, Key(e) in v.originals)
  {
  }

  lemma EnqueueKeepsPending(s: Sys, s': Sys, next: View, duplicate: bool)
    requires Took(s, s', next) && s.worker.mode.Serving? && PendingInv(s) && s.worker.target <= s.worker.cursor
    requires Enqueued(s.worker.view, next, s.worker.cursor + 1, duplicate)
    requires IsRequest(s.log, s.worker.cursor + 1) && Untouched(s, s.worker.cursor + 1)
    requires !duplicate ==> Original(s.log, s.worker.cursor + 1)
    requires s.worker.cursor + 1 !in s.worker.publishers
    ensures PendingInv(s')
  {
    var v, n := s.worker.view, s.worker.cursor + 1;
    forall i | 0 <= i < |v.pending| ensures v.pending[i] < n {
      assert v.pending[i] in v.pending;
    }
    forall r | r in next.pending
      ensures IsRequest(s'.log, r) && r <= Horizon(s') && Original(s'.log, r) && Untouched(s', r)
      ensures r !in s'.worker.publishers && r > s'.worker.target
      ensures r in s'.worker.view.requests ==> s'.worker.view.requests[r].phase.Pending?
    {
      assert r in v.pending || r == n;
    }
  }

  lemma EnqueueKeepsControls(s: Sys, s': Sys, next: View, duplicate: bool)
    requires Took(s, s', next) && s.worker.mode.Serving? && PendingInv(s) && ControlsInv(s)
    requires Enqueued(s.worker.view, next, s.worker.cursor + 1, duplicate)
    requires IsRequest(s.log, s.worker.cursor + 1) && Untouched(s, s.worker.cursor + 1)
    requires s.worker.cursor + 1 !in s.worker.publishers
    ensures ControlsInv(s')
  {
    var v, n := s.worker.view, s.worker.cursor + 1;
    assert forall i :: 0 <= i < |v.controls| ==> next.controls[i] == v.controls[i] && v.controls[i].0 < n;
    assert n !in v.pending;
    assert forall r :: r in next.pending ==> r in v.pending || r == n;
  }

  lemma PublishersBelowHorizon(s: Sys)
    requires s.worker.Up? && PublishersInv(s)
    ensures forall r :: r in s.worker.publishers ==> r <= Horizon(s)
  {
  }

  lemma ReadRequestKeepsQueues(s: Sys, s': Sys, cfg: Config)
    requires s.worker.Up? && ModeInv(s) && SentInv(s) && PendingInv(s) && ControlsInv(s)
    requires PublishersInv(s)
    requires Reads(s, s', cfg) && s'.worker.Up? && s.log[s.worker.cursor].payload.InferRequest?
    ensures PendingInv(s') && ControlsInv(s')
  {
    var w, e, n := s.worker, s.log[s.worker.cursor], s.worker.cursor + 1;
    NewRequestUntouched(s);
    NewRequestClassified(s, cfg);
    PublishersBelowHorizon(s);
    AcceptEnqueues(w.view, cfg, e, n);
    EnqueueKeepsPending(s, s', s'.worker.view, Key(e) in w.view.originals);
    EnqueueKeepsControls(s, s', s'.worker.view, Key(e) in w.view.originals);
  }

  lemma PopTracks(s: Sys, s': Sys, r: nat)
    requires s.worker.Up? && ModeInv(s) && s.worker.mode.Serving?
    requires s'.log == s.log && s'.worker.Up? && s'.worker.mode == s.worker.mode
    requires s'.worker.cursor == s.worker.cursor && s'.worker.target == s.worker.target
    requires s'.worker.view.originals == s.worker.view.originals
    requires s'.worker.view.requests == s.worker.view.requests
             || s'.worker.view.requests == SetPhase(s.worker.view, r, Running).requests
    ensures ModeInv(s')
  {
    SameProgressTracks(s.worker.view, s'.worker.view, s.log[..s.worker.cursor]);
  }

  lemma ScheduleKeepsPending(s: Sys, s': Sys, cfg: Config)
    requires s.worker.Up? && PendingInv(s) && Schedules(s, s', cfg)
    ensures PendingInv(s')
  {
    var w, r, rest := s.worker, s.worker.view.pending[0], s.worker.view.pending[1..];
    assert w.view.pending == [r] + rest;
    assert r !in rest by {
      assert forall i :: 0 <= i < |rest| ==> rest[i] == w.view.pending[i + 1];
    }
    assert forall i, j :: 0 <= i < j < |rest| ==> rest[i] < rest[j];
    forall q | q in rest
      ensures IsRequest(s'.log, q) && q <= Horizon(s') && Original(s'.log, q) && Untouched(s', q)
      ensures q !in s'.worker.publishers && q > s'.worker.target
      ensures q in s'.worker.view.requests ==> s'.worker.view.requests[q].phase.Pending?
    {
      assert q in w.view.pending && q != r;
    }
  }

  lemma ScheduleKeepsControls(s: Sys, s': Sys, cfg: Config)
    requires s.worker.Up? && ControlsInv(s) && Schedules(s, s', cfg)
    ensures ControlsInv(s')
  {
    var w, r, rest := s.worker, s.worker.view.pending[0], s.worker.view.pending[1..];
    assert w.view.pending == [r] + rest;
    assert r in w.view.pending;
  }

  lemma ScheduleKeepsRunning(s: Sys, s': Sys, cfg: Config)
    requires s.worker.Up? && RunningInv(s, cfg) && Schedules(s, s', cfg)
    requires s.worker.view.pending[0] !in s.worker.publishers
    ensures RunningInv(s', cfg)
  {
    var w, r := s.worker, s.worker.view.pending[0];
    if r in w.view.requests {
      assert Slots(s'.worker) == Slots(w) + {r};
    } else {
      assert Slots(s'.worker) == Slots(w);
    }
  }

  lemma ScheduleKeepsQueues(s: Sys, s': Sys, cfg: Config)
    requires s.worker.Up? && PendingInv(s) && ControlsInv(s) && RunningInv(s, cfg) && Schedules(s, s', cfg)
    ensures PendingInv(s') && ControlsInv(s') && RunningInv(s', cfg)
  {
    assert s.worker.view.pending[0] in s.worker.view.pending;
    ScheduleKeepsPending(s, s', cfg);
    ScheduleKeepsControls(s, s', cfg);
    ScheduleKeepsRunning(s, s', cfg);
  }

  lemma ScheduleKeepsPublishers(s: Sys, s': Sys, cfg: Config)
    requires s.worker.Up? && PendingInv(s) && Schedules(s, s', cfg)
    requires PublishersInv(s)
    ensures PublishersInv(s')
  {
    var r := s.worker.view.pending[0];
    assert r in s.worker.view.pending;
    forall q | q in s'.worker.publishers ensures PublisherInv(s', q) {
      if q in s.worker.publishers {
        assert PublisherInv(s, q);
        PublisherFrame(s, s', q);
      }
    }
  }

  lemma ScheduleKeepsInv(s: Sys, s': Sys, cfg: Config)
    requires Inv(s, cfg) && Schedules(s, s', cfg)
    ensures Inv(s', cfg)
  {
    QuietKeepsGlobals(s, s', cfg);
    PopTracks(s, s', s.worker.view.pending[0]);
    ScheduleKeepsQueues(s, s', cfg);
    ScheduleKeepsPublishers(s, s', cfg);
  }

  lemma PickControlKeepsQueues(s: Sys, s': Sys, cfg: Config)
    requires s.worker.Up? && PendingInv(s) && ControlsInv(s) && RunningInv(s, cfg) && PicksControl(s, s')
    ensures PendingInv(s') && ControlsInv(s') && RunningInv(s', cfg)
  {
    var w, r := s.worker, s.worker.view.controls[0].0;
    var rest := w.view.controls[1..];
    assert forall i :: 0 <= i < |rest| ==> rest[i] == w.view.controls[i + 1];
    assert Slots(s'.worker) == Slots(w);
    forall i | 0 <= i < |rest| ensures rest[i].0 != r {
      assert w.view.controls[0].0 < w.view.controls[i + 1].0;
    }
  }

  lemma PickControlKeepsPublishers(s: Sys, s': Sys)
    requires s.worker.Up? && ControlsInv(s) && PicksControl(s, s')
    requires PublishersInv(s)
    ensures PublishersInv(s')
  {
    forall q | q in s'.worker.publishers ensures PublisherInv(s', q) {
      if q in s.worker.publishers {
        assert PublisherInv(s, q);
        PublisherFrame(s, s', q);
      }
    }
  }

  lemma PickControlKeepsMode(s: Sys, s': Sys)
    requires s.worker.Up? && ModeInv(s) && PicksControl(s, s')
    ensures ModeInv(s')
  {
    PopTracks(s, s', s.worker.view.controls[0].0);
  }

  lemma PickControlKeepsInv(s: Sys, s': Sys, cfg: Config)
    requires Inv(s, cfg) && PicksControl(s, s')
    ensures Inv(s', cfg)
  {
    QuietKeepsGlobals(s, s', cfg);
    PickControlKeepsMode(s, s');
    PickControlKeepsQueues(s, s', cfg);
    PickControlKeepsPublishers(s, s');
  }

  // ---------------------------------------------------------------- views

  /** The same requests with the same protocol state. */
  ghost predicate SameProgress(v: View, v': View) {
    && v'.requests.Keys == v.requests.Keys && v'.originals == v.originals
    && forall r :: r in v.requests ==>
         v'.requests[r] == v.requests[r].(phase := v'.requests[r].phase, body := v'.requests[r].body,
                                          operation := v'.requests[r].operation)
  }

  lemma SameProgressTracks(v: View, v': View, seen: Log)
    requires Tracks(v, seen) && SameProgress(v, v')
    ensures Tracks(v', seen)
  {
    forall q: nat ensures Tracked(v', seen, q) {
      assert Tracked(v, seen, q);
    }
  }

  lemma RetireTracks(v: View, r: nat, seen: Log)
    requires Tracks(v, seen)
    ensures Tracks(Retire(v, r), seen)
  {
    forall q: nat ensures Tracked(Retire(v, r), seen, q) {
      assert Tracked(v, seen, q);
    }
  }

  // ---------------------------------------------------------------- a publisher ends

  lemma ReleaseTracks(v: View, r: nat, seen: Log)
    requires Tracks(v, seen)
    ensures Tracks(Release(v, r), seen)
  {
    var slot := v.(running := if v.running > 0 then v.running - 1 else 0);
    if r in v.requests {
      var released := slot.(requests := v.requests[r := v.requests[r].(phase := Done, body := None, operation := false)]);
      SameProgressTracks(v, released, seen);
      RetireTracks(released, r, seen);
    } else {
      SameProgressTracks(v, slot, seen);
    }
  }

  lemma FinishTracks(w: Worker, r: nat, seen: Log)
    requires w.Up? && r in w.publishers && Tracks(w.view, seen)
    ensures Tracks(Finish(w, r).view, seen)
  {
    SameProgressTracks(w.view, SetPhase(w.view, r, Done), seen);
    RetireTracks(SetPhase(w.view, r, Done), r, seen);
    ReleaseTracks(w.view, r, seen);
  }

  lemma FinishSlots(s: Sys, r: nat, cfg: Config)
    requires s.worker.Up? && r in s.worker.publishers && RunningInv(s, cfg)
    ensures Finish(s.worker, r).view.running == |Slots(Finish(s.worker, r))| <= cfg.maxConcurrency
  {
    var role := s.worker.publishers[r].role;
    if role.Recovery? || role.Control? {
      assert Slots(Finish(s.worker, r)) == Slots(s.worker);
    } else {
      assert r in Slots(s.worker);
      assert Slots(Finish(s.worker, r)) == Slots(s.worker) - {r};
    }
  }

  /** What ending the publisher of `r` leaves alone. */
  lemma FinishFrame(w: Worker, r: nat)
    requires w.Up? && r in w.publishers
    ensures var w' := Finish(w, r);
            && w'.Up? && w'.mode == w.mode && w'.target == w.target && w'.cursor == w.cursor
            && w'.publishers == w.publishers - {r}
            && w'.view.pending == w.view.pending && w'.view.controls == w.view.controls
            && (forall q :: q != r ==> (q in w'.view.requests <==> q in w.view.requests))
            && (forall q :: q != r && q in w.view.requests ==> w'.view.requests[q] == w.view.requests[q])
  {
  }

  lemma FinishKeepsPublishers(s: Sys, s': Sys, r: nat)
    requires s.worker.Up? && r in s.worker.publishers && s' == s.(worker := Finish(s.worker, r))
    requires PublishersInv(s)
    ensures PublishersInv(s')
  {
    FinishFrame(s.worker, r);
    forall q | q in s'.worker.publishers ensures PublisherInv(s', q) {
      assert PublisherInv(s, q);
      PublisherFrame(s, s', q);
    }
  }

  lemma FinishKeepsQueues(s: Sys, s': Sys, r: nat, cfg: Config)
    requires s.worker.Up? && r in s.worker.publishers && s' == s.(worker := Finish(s.worker, r))
    requires PendingInv(s) && ControlsInv(s) && RunningInv(s, cfg)
    ensures PendingInv(s') && ControlsInv(s') && RunningInv(s', cfg)
  {
    FinishFrame(s.worker, r);
    FinishSlots(s, r, cfg);
  }

  /** The publisher of one live request ends; everything else stays. */
  lemma FinishKeepsMode(s: Sys, s': Sys, r: nat)
    requires s.worker.Up? && r in s.worker.publishers && ModeInv(s) && s.worker.mode.Serving?
    requires !s.worker.publishers[r].role.Recovery? && s' == s.(worker := Finish(s.worker, r))
    ensures ModeInv(s')
  {
    FinishFrame(s.worker, r);
    FinishTracks(s.worker, r, s.log[..s.worker.cursor]);
  }

  lemma FinishKeepsInv(s: Sys, s': Sys, r: nat, cfg: Config)
    requires Inv(s, cfg) && s.worker.Up? && r in s.worker.publishers
    requires !s.worker.publishers[r].role.Recovery? && s' == s.(worker := Finish(s.worker, r))
    ensures Inv(s', cfg)
  {
    FinishFrame(s.worker, r);
    QuietKeepsGlobals(s, s', cfg);
    FinishKeepsQueues(s, s', r, cfg);
    FinishKeepsPublishers(s, s', r);
    assert PublisherInv(s, r);
    FinishKeepsMode(s, s', r);
  }

  lemma QuitKeepsInv(s: Sys, s': Sys, r: nat, cfg: Config)
    requires Inv(s, cfg) && Quits(s, s', r)
    ensures Inv(s', cfg)
  {
    if s.worker.publishers[r].role.Recovery? {
      CrashKeepsInv(s, s', cfg);
    } else {
      FinishKeepsInv(s, s', r, cfg);
    }
  }

  /** The log holds the very event the publisher had frozen. */
  lemma ReturnedEvent(s: Sys, r: nat, q: nat, cfg: Config)
    requires Inv(s, cfg) && s.worker.Up? && r in s.worker.publishers && s.worker.publishers[r].out.Sent?
    requires 1 <= q <= |s.log| && At(s.log, q).uuid == s.worker.publishers[r].out.event.uuid
    ensures At(s.log, q) == s.worker.publishers[r].out.event && At(s.log, q) in s.log
  {
    assert At(s.log, q) in s.log;
  }

  lemma ReturnKeepsInv(s: Sys, s': Sys, r: nat, q: nat, cfg: Config)
    requires Inv(s, cfg) && Returns(s, s', r, q)
    ensures Inv(s', cfg)
  {
    ReturnedEvent(s, r, q, cfg);
    assert PublisherInv(s, r);
    match s.worker.publishers[r].role
    case Recovery => RecoveryReturnKeepsInv(s, s', r, q, cfg);
    case Control(_) => FinishKeepsInv(s, s', r, cfg);
    case Calling(stage, _, failing) =>
      if failing {
        FinishKeepsInv(s, s', r, cfg);
      } else {
        CallReturnKeepsInv(s, s', r, q, cfg);
      }
  }

  /** A publisher is replaced by one for the same request. */
  ghost predicate Replaces(s: Sys, s': Sys, r: nat, p: Publisher) {
    && s.worker.Up? && r in s.worker.publishers
    && s'.worker == s.worker.(publishers := s.worker.publishers[r := p])
  }

  lemma ReplaceKeepsQueues(s: Sys, s': Sys, r: nat, p: Publisher, cfg: Config)
    requires Replaces(s, s', r, p) && Quiet(s, s')
    requires PendingInv(s) && ControlsInv(s) && RunningInv(s, cfg)
    requires p.role.Calling? && s.worker.publishers[r].role.Calling?
    ensures PendingInv(s') && ControlsInv(s') && RunningInv(s', cfg)
  {
    assert Slots(s'.worker) == Slots(s.worker);
  }

  lemma ReplaceKeepsMode(s: Sys, s': Sys, r: nat, p: Publisher)
    requires Replaces(s, s', r, p) && Quiet(s, s') && ModeInv(s)
    requires p.role.Calling? && s.worker.mode.Serving?
    ensures ModeInv(s')
  {
  }

  lemma ReplaceKeepsOthers(s: Sys, s': Sys, r: nat, p: Publisher)
    requires Replaces(s, s', r, p) && Quiet(s, s')
    requires PublishersInv(s)
    ensures forall q :: q in s'.worker.publishers && q != r ==> PublisherInv(s', q)
  {
    forall q | q in s'.worker.publishers && q != r ensures PublisherInv(s', q) {
      assert PublisherInv(s, q);
      PublisherFrame(s, s', q);
    }
  }

  lemma CallReturns(s: Sys, s': Sys, r: nat, q: nat)
    requires Returns(s, s', r, q) && PublisherInv(s, r)
    requires s.worker.publishers[r].role.Calling? && !s.worker.publishers[r].role.failing
    requires At(s.log, q) == s.worker.publishers[r].out.event && At(s.log, q) in s.log
    requires s.worker.publishers[r].out.event in s.sent && RefOf(s.worker.publishers[r].out.event) == r
    ensures s.worker.mode.Serving? && PublisherInv(s', r)
  {
    assert OnlyOutstanding(s', r, None);
    assert CallInv(s', r, s'.worker.publishers[r]);
  }

  lemma CallReturnKeepsWorker(s: Sys, s': Sys, r: nat, q: nat, p: Publisher, cfg: Config)
    requires Returns(s, s', r, q) && WorkerInv(s, cfg)
    requires s.worker.publishers[r].role.Calling? && !s.worker.publishers[r].role.failing
    requires Replaces(s, s', r, p) && Quiet(s, s') && p.role.Calling?
    requires At(s.log, q) == s.worker.publishers[r].out.event && At(s.log, q) in s.log
    requires s.worker.publishers[r].out.event in s.sent
    ensures WorkerInv(s', cfg)
  {
    assert PublisherInv(s, r);
    assert RefOf(s.worker.publishers[r].out.event) == r;
    CallReturns(s, s', r, q);
    ReplaceKeepsQueues(s, s', r, p, cfg);
    ReplaceKeepsMode(s, s', r, p);
    ReplaceKeepsOthers(s, s', r, p);
  }

  lemma CallReturnIsQuiet(s: Sys, s': Sys, r: nat, q: nat)
    requires Returns(s, s', r, q)
    requires s.worker.publishers[r].role.Calling? && !s.worker.publishers[r].role.failing
    ensures r in s'.worker.publishers && s'.worker.publishers[r].role.Calling?
    ensures Replaces(s, s', r, s'.worker.publishers[r]) && Quiet(s, s') && NoNewEvents(s, s')
    ensures Horizon(s') == Horizon(s)
  {
  }

  lemma CallReturnKeepsInv(s: Sys, s': Sys, r: nat, q: nat, cfg: Config)
    requires Inv(s, cfg) && Returns(s, s', r, q)
    requires s.worker.publishers[r].role.Calling? && !s.worker.publishers[r].role.failing
    ensures Inv(s', cfg)
  {
    CallReturnIsQuiet(s, s', r, q);
    QuietKeepsGlobals(s, s', cfg);
    ReturnedEvent(s, r, q, cfg);
    CallReturnKeepsWorker(s, s', r, q, s'.worker.publishers[r], cfg);
  }

  /** Recovery's output, once committed, is the request's terminal unless it had one. */
  lemma RecoveredIsDecided(s: Sys, r: nat, q: nat, cfg: Config)
    requires Inv(s, cfg) && s.worker.Up? && r in s.worker.publishers
    requires s.worker.publishers[r].role.Recovery? && s.worker.publishers[r].out.Sent?
    requires 1 <= q <= |s.log| && At(s.log, q).uuid == s.worker.publishers[r].out.event.uuid
    ensures IsRequest(s.log, r) && Decided(s, r)
  {
    ReturnedEvent(s, r, q, cfg);
    assert PublisherInv(s, r);
    var e := s.worker.publishers[r].out.event;
    assert Sound(s, r);
    assert e in s.sent && e in s.log && RefOf(e) == r;
  }

  lemma RestIsUndecided(s: Sys, r: nat, rest: seq<nat>)
    requires s.worker.Up? && ModeInv(s) && s.worker.mode == Recovering([r] + rest)
    requires IsRequest(s.log, r) && Decided(s, r)
    ensures forall i, j :: 0 <= i < j < |rest| ==> rest[i] < rest[j]
    ensures forall q :: q in rest ==>
              q != r && q in s.worker.view.requests && s.worker.view.requests[q].terminal.None?
    ensures forall p: nat :: IsRequest(s.log, p) && p <= s.worker.target && p !in rest ==> Decided(s, p)
  {
    var todo := [r] + rest;
    assert forall i :: 0 <= i < |rest| ==> rest[i] == todo[i + 1];
    assert todo[0] == r;
    assert forall p :: p in todo <==> p == r || p in rest;
  }

  lemma RecoveryReturnKeepsMode(s: Sys, s': Sys, r: nat, q: nat)
    requires Returns(s, s', r, q) && s.worker.publishers[r].role.Recovery?
    requires ModeInv(s) && IsRequest(s.log, r) && Decided(s, r) && s.worker.publishers.Keys == {r}
    ensures ModeInv(s') && s'.worker.publishers == map[]
  {
    FinishTracks(s.worker, r, s.log[..s.worker.cursor]);
    FinishFrame(s.worker, r);
    assert s.worker.mode.todo == [r] + s.worker.mode.todo[1..];
    RestIsUndecided(s, r, s.worker.mode.todo[1..]);
    assert forall p: nat :: IsRequest(s.log, p) && Decided(s, p) ==> Decided(s', p);
  }

  lemma OnlyRecovery(s: Sys, r: nat)
    requires s.worker.Up? && r in s.worker.publishers && s.worker.publishers[r].role.Recovery?
    requires PublishersInv(s) && ModeInv(s)
    ensures s.worker.publishers.Keys == {r}
  {
    assert PublisherInv(s, r);
    forall p | p in s.worker.publishers ensures p == r {
      assert PublisherInv(s, p);
    }
  }

  lemma RecoveryReturnKeepsWorker(s: Sys, s': Sys, r: nat, q: nat, cfg: Config)
    requires Returns(s, s', r, q) && s.worker.publishers[r].role.Recovery?
    requires WorkerInv(s, cfg) && IsRequest(s.log, r) && Decided(s, r)
    ensures WorkerInv(s', cfg)
  {
    OnlyRecovery(s, r);
    RecoveryReturnKeepsMode(s, s', r, q);
    FinishSlots(s, r, cfg);
    FinishFrame(s.worker, r);
    assert Slots(s'.worker) == Slots(Finish(s.worker, r));
  }

  lemma RecoveryReturnKeepsInv(s: Sys, s': Sys, r: nat, q: nat, cfg: Config)
    requires Inv(s, cfg) && Returns(s, s', r, q) && s.worker.publishers[r].role.Recovery?
    ensures Inv(s', cfg)
  {
    RecoveredIsDecided(s, r, q, cfg);
    QuietKeepsGlobals(s, s', cfg);
    RecoveryReturnKeepsWorker(s, s', r, q, cfg);
  }
}
