/** Events are frozen and sent, and provider calls are started. */
module SystemPublishProof {
  import opened Protocol
  import opened Progress
  import opened WorkerView
  import opened ProviderEvents
  import opened System
  import opened SystemInvariant
  import opened SystemWorkerProof

  /** The log, what was sent and which calls exist are as before; `r` has publisher `p`. */
  ghost predicate Republishes(s: Sys, s': Sys, r: nat, p: Publisher) {
    && s.worker.Up? && r in s.worker.publishers
    && s'.log == s.log && s'.sent == s.sent && s'.calls == s.calls && s.nextUuid <= s'.nextUuid
    && s'.worker == s.worker.(publishers := s.worker.publishers[r := p])
    && (forall q :: q in s'.produced ==> q in s.produced || q == r)
  }

  /** A publisher of one request says nothing about another. */
  lemma OtherPublisher(s: Sys, s': Sys, r: nat, p: Publisher, q: nat)
    requires Republishes(s, s', r, p) && q != r && q in s.worker.publishers && PublisherInv(s, q)
    ensures PublisherInv(s', q)
  {
    if s.worker.publishers[q].role.Calling? {
      assert CallInv(s', q, s.worker.publishers[q]);
    }
  }

  lemma FreezeKeepsUuids(s: Sys, s': Sys, r: nat, p: Publisher)
    requires UuidInv(s) && Republishes(s, s', r, p) && s'.nextUuid == s.nextUuid + 1
    requires p.out.Ready? && p.out.event.uuid == s.nextUuid
    ensures UuidInv(s')
  {
    assert Publishers(s) == s.worker.publishers && Publishers(s') == s'.worker.publishers;
    forall q | q in Publishers(s') && Publishers(s')[q].out.Ready?
      ensures UnusedUuid(s', Publishers(s')[q].out.event)
      ensures q != r ==> Publishers(s')[q].out.event.uuid < s.nextUuid
    {
      if q != r {
        assert UnusedUuid(s, Publishers(s)[q].out.event);
      }
    }
  }

  lemma RepublishKeepsSound(s: Sys, s': Sys, r: nat, p: Publisher, q: nat)
    requires Republishes(s, s', r, p) && IsRequest(s.log, q) && Sound(s, q)
    ensures Sound(s', q)
  {
  }

  lemma RepublishKeepsSent(s: Sys, s': Sys, r: nat, p: Publisher)
    requires Republishes(s, s', r, p) && SentInv(s) && (s'.produced == s.produced || r in s.calls)
    ensures SentInv(s')
  {
  }

  lemma RepublishKeepsWorker(s: Sys, s': Sys, r: nat, p: Publisher, cfg: Config)
    requires Republishes(s, s', r, p)
    requires s.worker.publishers[r].role == p.role || (s.worker.publishers[r].role.Calling? && p.role.Calling?)
    requires ModeInv(s) && PendingInv(s) && ControlsInv(s) && RunningInv(s, cfg)
    ensures ModeInv(s') && PendingInv(s') && ControlsInv(s') && RunningInv(s', cfg)
  {
    assert Slots(s'.worker) == Slots(s.worker);
    assert s'.worker.publishers.Keys == s.worker.publishers.Keys;
  }

  /** Freezing an event for `r` keeps the invariant when it keeps that of `r`. */
  lemma FreezeKeepsInv(s: Sys, s': Sys, r: nat, p: Publisher, cfg: Config)
    requires Inv(s, cfg) && Republishes(s, s', r, p) && s'.nextUuid == s.nextUuid + 1
    requires p.out.Ready? && p.out.event.uuid == s.nextUuid
    requires s'.produced == s.produced || r in s.calls
    requires s.worker.publishers[r].role == p.role || (s.worker.publishers[r].role.Calling? && p.role.Calling?)
    requires PublisherInv(s', r)
    ensures Inv(s', cfg)
  {
    FreezeKeepsUuids(s, s', r, p);
    RepublishKeepsSent(s, s', r, p);
    forall q: nat | IsRequest(s'.log, q) ensures Sound(s', q) {
      RepublishKeepsSound(s, s', r, p, q);
    }
    RepublishKeepsWorker(s, s', r, p, cfg);
    forall q | q in s'.worker.publishers && q != r ensures PublisherInv(s', q) {
      OtherPublisher(s, s', r, p, q);
    }
  }

  /** What the view says about a request with a publisher. */
  lemma ViewOf(s: Sys, r: nat)
    requires s.worker.Up? && ModeInv(s) && r in s.worker.view.requests
    ensures StateOf(s.log, r, s.worker.view.requests[r])
  {
    var seen := s.log[..s.worker.cursor];
    assert Tracked(s.worker.view, seen, r);
    OriginalExtends(seen, s.log, r);
  }

  lemma NodeIsOutput(log: Log, r: nat, t: nat)
    requires IsRequest(log, r) && Node(log, r, t)
    ensures At(log, t) in log && IsOutput(At(log, t)) && RefOf(At(log, t)) == r
  {
  }

  /** A chain exists only when the log, and therefore what was sent, holds an output. */
  lemma ChainWasSent(s: Sys, r: nat)
    requires IsRequest(s.log, r) && UniqueLog(s)
    requires forall e :: e in s.sent ==> RefOf(e) != r
    ensures OpenAt(s, r, None)
  {
    TrackExplained(s.log, r);
    match Track(s.log, r)
    case Progress(Some(c), None) => NodeIsOutput(s.log, r, c);
    case _ =>
  }

  /** The event a provider call yields next continues the chain it has written. */
  lemma YieldKeepsCall(s: Sys, s': Sys, r: nat, event: ProviderEvent, e: Entry, p: Publisher)
    requires Yields(s, s', r, event) && UniqueLog(s) && PublisherInv(s, r)
    requires StateOf(s.log, r, s.worker.view.requests[r])
    requires e == Frozen(s, r, OutputPayload(s.worker.view.requests[r], event, s.worker.publishers[r].role.writer))
    requires p == Publisher(s.worker.publishers[r].role.(stage := After(event)), Ready(e))
    requires Republishes(s, s', r, p)
    ensures PublisherInv(s', r)
  {
    assert ShapeOk(s, r, e);
    if event.Headers? {
      ChainWasSent(s, r);
    }
    assert OnlyOutstanding(s', r, None);
    assert CallInv(s', r, p);
  }

  lemma YieldKeepsInv(s: Sys, s': Sys, r: nat, event: ProviderEvent, cfg: Config)
    requires Inv(s, cfg) && Yields(s, s', r, event)
    ensures Inv(s', cfg)
  {
    var role := s.worker.publishers[r].role;
    var e := Frozen(s, r, OutputPayload(s.worker.view.requests[r], event, role.writer));
    var p := Publisher(role.(stage := After(event)), Ready(e));
    ViewOf(s, r);
    CallIsKnown(s, r);
    YieldKeepsCall(s, s', r, event, e, p);
    FreezeKeepsInv(s, s', r, p, cfg);
  }

  lemma CallIsKnown(s: Sys, r: nat)
    requires s.worker.Up? && r in s.worker.publishers && PublisherInv(s, r)
    ensures s.worker.publishers[r].role.Calling? ==> r in s.calls
  {
  }

  lemma FailKeepsCall(s: Sys, s': Sys, r: nat, code: int, dropped: seq<Json>, e: Entry, p: Publisher)
    requires Fails(s, s', r, code, dropped) && PublisherInv(s, r)
    requires StateOf(s.log, r, s.worker.view.requests[r])
    requires e == Frozen(s, r, ErrorPayload(s.worker.view.requests[r], code, false, false))
    requires p == Publisher(s.worker.publishers[r].role.(failing := true), Ready(e))
    requires Republishes(s, s', r, p)
    ensures PublisherInv(s', r)
  {
    assert ShapeOk(s, r, e);
    assert OnlyOutstanding(s', r, None);
    assert CallInv(s', r, p);
  }

  lemma FailKeepsInv(s: Sys, s': Sys, r: nat, code: int, dropped: seq<Json>, cfg: Config)
    requires Inv(s, cfg) && Fails(s, s', r, code, dropped)
    ensures Inv(s', cfg)
  {
    var e := Frozen(s, r, ErrorPayload(s.worker.view.requests[r], code, false, false));
    var p := Publisher(s.worker.publishers[r].role.(failing := true), Ready(e));
    ViewOf(s, r);
    CallIsKnown(s, r);
    FailKeepsCall(s, s', r, code, dropped, e, p);
    FreezeKeepsInv(s, s', r, p, cfg);
  }

  /** A duplicate, and an ordinary request, never had a bodyless result. */
  lemma RejectKeepsOwn(s: Sys, s': Sys, r: nat)
    requires Rejects(s, s', r) && PublisherInv(s, r) && SentInv(s)
    requires StateOf(s.log, r, s.worker.view.requests[r])
    ensures PublisherInv(s', r)
    ensures Republishes(s, s', r, s'.worker.publishers[r])
  {
    assert ShapeOk(s, r, s'.worker.publishers[r].out.event);
  }

  lemma RejectKeepsInv(s: Sys, s': Sys, r: nat, cfg: Config)
    requires Inv(s, cfg) && Rejects(s, s', r)
    ensures Inv(s', cfg)
  {
    ViewOf(s, r);
    RejectKeepsOwn(s, s', r);
    FreezeKeepsInv(s, s', r, s'.worker.publishers[r], cfg);
  }

  // ---------------------------------------------------------------- sending

  ghost predicate Sending(s: Sys, s': Sys, r: nat, e: Entry) {
    && Sends(s, s', r) && e == s.worker.publishers[r].out.event
    && IsRequest(s.log, r) && ShapeOk(s, r, e) && UnusedUuid(s, e)
    && (IsChain(e) ==> OnlyOutstanding(s, r, None) && OpenAt(s, r, ChainBefore(e)))
    && (IsHead(e) ==> forall f :: f in s.sent ==> RefOf(f) != r)
  }

  lemma ReadyToSend(s: Sys, s': Sys, r: nat, cfg: Config)
    requires Inv(s, cfg) && Sends(s, s', r)
    ensures Sending(s, s', r, s.worker.publishers[r].out.event)
    ensures RefOf(s.worker.publishers[r].out.event) == r <= Horizon(s)
  {
    assert PublisherInv(s, r);
    assert UnusedUuid(s, Publishers(s)[r].out.event);
  }

  lemma SendKeepsSound(s: Sys, s': Sys, r: nat, e: Entry, q: nat)
    requires Sending(s, s', r, e) && RefOf(e) == r && IsRequest(s.log, q) && Sound(s, q)
    ensures Sound(s', q)
  {
    forall f | f in s'.sent && RefOf(f) == q ensures ShapeOk(s', q, f) {
      if f != e { assert ShapeOk(s, q, f); }
    }
    if !Decided(s, q) {
      assert forall f :: Outstanding(s', q, f) ==> Outstanding(s, q, f) || (f == e && q == r);
      if q == r {
        assert e !in s.log;
        assert Fits(Track(s.log, r), e);
      }
      assert OpenInv(s', q);
    }
  }

  lemma SendKeepsUnique(s: Sys, s': Sys, r: nat, e: Entry)
    requires UniqueLog(s) && UniqueSent(s) && Sending(s, s', r, e) && IsOutput(e)
    ensures UniqueLog(s') && UniqueSent(s')
  {
  }

  lemma SendKeepsFrozen(s: Sys, s': Sys, r: nat, e: Entry)
    requires FrozenInv(s) && Sending(s, s', r, e)
    ensures FrozenInv(s')
  {
    assert Publishers(s) == s.worker.publishers && Publishers(s') == s'.worker.publishers;
    forall q | q in Publishers(s') && Publishers(s')[q].out.Ready?
      ensures UnusedUuid(s', Publishers(s')[q].out.event)
    {
      assert UnusedUuid(s, Publishers(s)[q].out.event);
    }
  }

  lemma SendKeepsOthers(s: Sys, s': Sys, r: nat, e: Entry, q: nat)
    requires Sending(s, s', r, e) && RefOf(e) == r && q != r
    requires q in s.worker.publishers && PublisherInv(s, q)
    ensures PublisherInv(s', q)
  {
    assert forall f :: Outstanding(s', q, f) ==> Outstanding(s, q, f);
    if s.worker.publishers[q].role.Calling? {
      assert CallInv(s', q, s.worker.publishers[q]);
    }
  }

  lemma SendKeepsOwn(s: Sys, s': Sys, r: nat, e: Entry)
    requires Sending(s, s', r, e) && RefOf(e) == r && PublisherInv(s, r)
    ensures PublisherInv(s', r)
  {
    assert forall f :: Outstanding(s', r, f) ==> Outstanding(s, r, f) || f == e;
    var p := s'.worker.publishers[r];
    if p.role.Calling? {
      assert forall q :: 1 <= q <= |s.log| ==> At(s.log, q) in s.log;
      assert CallInv(s', r, p);
    }
  }

  lemma SendKeepsWorker(s: Sys, s': Sys, r: nat, e: Entry, cfg: Config)
    requires Sending(s, s', r, e) && RefOf(e) == r
    requires ModeInv(s) && PendingInv(s) && ControlsInv(s) && RunningInv(s, cfg)
    ensures ModeInv(s') && PendingInv(s') && ControlsInv(s') && RunningInv(s', cfg)
  {
    assert Slots(s'.worker) == Slots(s.worker);
    assert s'.worker.publishers.Keys == s.worker.publishers.Keys;
  }

  lemma SendKeepsAllSound(s: Sys, s': Sys, r: nat, e: Entry)
    requires Sending(s, s', r, e) && RefOf(e) == r && AllSound(s)
    ensures AllSound(s')
  {
    forall q: nat | IsRequest(s'.log, q) ensures Sound(s', q) {
      SendKeepsSound(s, s', r, e, q);
    }
  }

  lemma SendKeepsPublishers(s: Sys, s': Sys, r: nat, e: Entry)
    requires Sending(s, s', r, e) && RefOf(e) == r && PublishersInv(s)
    ensures PublishersInv(s')
  {
    forall q | q in s'.worker.publishers ensures PublisherInv(s', q) {
      if q == r {
        SendKeepsOwn(s, s', r, e);
      } else {
        SendKeepsOthers(s, s', r, e, q);
      }
    }
  }

  lemma SendKeepsSent(s: Sys, s': Sys, r: nat, e: Entry)
    requires Sending(s, s', r, e) && RefOf(e) == r <= Horizon(s) && SentInv(s)
    ensures SentInv(s')
  {
  }

  lemma SendKeepsInv(s: Sys, s': Sys, r: nat, cfg: Config)
    requires Inv(s, cfg) && Sends(s, s', r)
    ensures Inv(s', cfg)
  {
    var e := s.worker.publishers[r].out.event;
    ReadyToSend(s, s', r, cfg);
    SendKeepsUnique(s, s', r, e);
    SendKeepsFrozen(s, s', r, e);
    SendKeepsSent(s, s', r, e);
    SendKeepsWorker(s, s', r, e, cfg);
    SendKeepsAllSound(s, s', r, e);
    SendKeepsPublishers(s, s', r, e);
  }

  // ---------------------------------------------------------------- starting a call

  lemma StartCallKeepsSound(s: Sys, s': Sys, r: nat, q: nat)
    requires StartsCall(s, s', r) && Untouched(s, r) && IsRequest(s.log, q) && Sound(s, q)
    ensures Sound(s', q)
  {
    forall f | f in s'.sent && RefOf(f) == q ensures ShapeOk(s', q, f) {
      assert ShapeOk(s, q, f);
    }
  }

  lemma StartCallKeepsPublisher(s: Sys, s': Sys, r: nat, q: nat)
    requires StartsCall(s, s', r) && q in s.worker.publishers && PublisherInv(s, q) && q != r
    ensures PublisherInv(s', q)
  {
    if s.worker.publishers[q].role.Calling? {
      assert CallInv(s', q, s.worker.publishers[q]);
    }
  }

  lemma StartCallKeepsOwn(s: Sys, s': Sys, r: nat)
    requires StartsCall(s, s', r) && PublisherInv(s, r)
    ensures PublisherInv(s', r) && Untouched(s, r) && Original(s.log, r) && IsRequest(s.log, r) && r <= Horizon(s)
  {
    assert CallInv(s', r, s'.worker.publishers[r]);
  }

  lemma StartCallKeepsUuids(s: Sys, s': Sys, r: nat)
    requires UuidInv(s) && StartsCall(s, s', r)
    ensures UuidInv(s')
  {
    forall q | q in Publishers(s') && Publishers(s')[q].out.Ready?
      ensures UnusedUuid(s', Publishers(s')[q].out.event)
    {
      assert UnusedUuid(s, Publishers(s)[q].out.event);
    }
  }

  lemma StartCallKeepsSent(s: Sys, s': Sys, r: nat)
    requires SentInv(s) && StartsCall(s, s', r)
    requires r !in s.calls && IsRequest(s.log, r) && Original(s.log, r) && r <= Horizon(s)
    ensures SentInv(s')
  {
    assert forall i :: 0 <= i < |s.calls| ==> s'.calls[i] == s.calls[i] && s.calls[i] in s.calls;
  }

  lemma StartCallKeepsMode(s: Sys, s': Sys, r: nat)
    requires StartsCall(s, s', r) && ModeInv(s) && s.worker.mode.Serving?
    ensures ModeInv(s')
  {
    SameProgressTracks(s.worker.view, s'.worker.view, s.log[..s.worker.cursor]);
  }

  lemma StartCallKeepsQueues(s: Sys, s': Sys, r: nat, cfg: Config)
    requires StartsCall(s, s', r)
    requires PendingInv(s) && ControlsInv(s) && RunningInv(s, cfg)
    requires s.worker.mode.Serving?
    ensures PendingInv(s') && ControlsInv(s') && RunningInv(s', cfg)
  {
    assert s'.worker.publishers.Keys == s.worker.publishers.Keys;
    assert Slots(s'.worker) == Slots(s.worker);
  }

  lemma StartCallKeepsInv(s: Sys, s': Sys, r: nat, cfg: Config)
    requires Inv(s, cfg) && StartsCall(s, s', r)
    ensures Inv(s', cfg)
  {
    StartCallKeepsOwn(s, s', r);
    StartCallKeepsUuids(s, s', r);
    StartCallKeepsSent(s, s', r);
    StartCallKeepsMode(s, s', r);
    StartCallKeepsQueues(s, s', r, cfg);
    forall q: nat | IsRequest(s'.log, q) ensures Sound(s', q) {
      StartCallKeepsSound(s, s', r, q);
    }
    forall q | q in s'.worker.publishers && q != r ensures PublisherInv(s', q) {
      StartCallKeepsPublisher(s, s', r, q);
    }
  }
}
