/** The log grows: members publish, and the server commits what was sent to it. */
module SystemLogProof {
  import opened Protocol
  import opened Progress
  import opened WorkerView
  import opened ProviderEvents
  import opened System
  import opened SystemInvariant

  /** One entry is appended: a member's, or one that some attempt had sent. */
  ghost predicate Grows(s: Sys, s': Sys, e: Entry) {
    && s'.log == s.log + [e]
    && s'.sent == s.sent && s'.calls == s.calls && s'.worker == s.worker && s'.produced == s.produced
    && s.nextUuid <= s'.nextUuid && e.uuid < s'.nextUuid
    && (IsOutput(e) ==> e in s.sent && e !in s.log)
    && (forall f :: f in s.log ==> f.uuid != e.uuid)
  }

  lemma CommittedExtends(s: Sys, s': Sys, e: Entry)
    requires Grows(s, s', e)
    ensures forall f :: f in s'.log <==> f in s.log || f == e
    ensures forall r, f :: Outstanding(s', r, f) <==> Outstanding(s, r, f) && f != e
    ensures At(s'.log, |s'.log|) == e
  {
  }

  lemma RequestsExtend(s: Sys, s': Sys, e: Entry, r: nat)
    requires Grows(s, s', e)
    ensures IsRequest(s.log, r) ==> IsRequest(s'.log, r) && At(s'.log, r) == At(s.log, r)
    ensures IsRequest(s.log, r) ==> Original(s'.log, r) == Original(s.log, r)
    ensures IsRequest(s'.log, r) && r <= |s.log| ==> IsRequest(s.log, r)
  {
    if IsRequest(s.log, r) {
      OriginalExtends(s.log, s'.log, r);
    }
    if IsRequest(s'.log, r) && r <= |s.log| {
      assert At(s'.log, r) == At(s.log, r);
    }
  }

  /** How one more entry moves a request that was sound. */
  lemma TrackAfterEntry(s: Sys, s': Sys, e: Entry, r: nat)
    requires Grows(s, s', e) && IsRequest(s.log, r) && Sound(s, r)
    ensures IsRequest(s'.log, r)
    ensures Track(s'.log, r).Progress?
    ensures Decided(s, r) ==> Track(s'.log, r) == Track(s.log, r)
    ensures !Decided(s, r) && !Outstanding(s, r, e) ==>
              Decided(s', r) || Track(s'.log, r) == Track(s.log, r)
    ensures !Decided(s, r) && Outstanding(s, r, e) && IsChain(e) ==>
              Track(s'.log, r) == Progress(Some(|s'.log|), None)
    ensures !Decided(s, r) && Outstanding(s, r, e) && !IsChain(e) ==> Decided(s', r)
  {
    TrackStep(s.log, r, e);
    assert Outstanding(s, r, e) ==> ShapeOk(s, r, e);
    if !Decided(s, r) && Matches(At(s.log, r), r, e) && IsOutput(e) {
      assert Outstanding(s, r, e);
      assert Fits(Track(s.log, r), e);
    }
  }

  lemma SoundAfterEntry(s: Sys, s': Sys, e: Entry, r: nat)
    requires Grows(s, s', e) && IsRequest(s.log, r) && Sound(s, r)
    ensures IsRequest(s'.log, r) && Sound(s', r)
  {
    CommittedExtends(s, s', e);
    RequestsExtend(s, s', e, r);
    TrackAfterEntry(s, s', e, r);
    forall f | f in s'.sent && RefOf(f) == r ensures ShapeOk(s', r, f) {
      assert ShapeOk(s, r, f);
    }
    if !Decided(s', r) {
      assert !Decided(s, r);
      if Outstanding(s, r, e) {
        assert IsChain(e) && ShapeOk(s, r, e);
        forall f | Outstanding(s', r, f) ensures Fits(Track(s'.log, r), f) {
          assert Outstanding(s, r, f) && ShapeOk(s, r, f);
          assert !IsChain(f);
        }
      }
      assert OpenInv(s', r);
    }
  }

  lemma SoundNewRequest(s: Sys, s': Sys, e: Entry)
    requires Grows(s, s', e) && SentInv(s) && e.payload.InferRequest?
    ensures IsRequest(s'.log, |s'.log|) && Sound(s', |s'.log|)
  {
    CommittedExtends(s, s', e);
    TrackStart(s'.log);
    assert forall f :: f in s'.sent ==> RefOf(f) <= |s.log|;
  }

  lemma UuidAfterEntry(s: Sys, s': Sys, e: Entry)
    requires Grows(s, s', e) && UuidInv(s)
    requires forall f :: f in s.sent && f.uuid == e.uuid ==> f == e
    requires forall r :: r in Publishers(s) && Publishers(s)[r].out.Ready? ==>
                           Publishers(s)[r].out.event.uuid != e.uuid
    ensures UuidInv(s')
  {
    CommittedExtends(s, s', e);
    assert Publishers(s') == Publishers(s);
    forall r | r in Publishers(s') && Publishers(s')[r].out.Ready?
      ensures UnusedUuid(s', Publishers(s')[r].out.event)
    {
      assert UnusedUuid(s, Publishers(s)[r].out.event);
    }
    assert UniqueLog(s') by {
      forall i, j | 0 <= i < j < |s'.log| ensures s'.log[i].uuid != s'.log[j].uuid {
        if j < |s.log| {
          assert s'.log[i] == s.log[i] && s'.log[j] == s.log[j];
        } else {
          assert s'.log[i] in s.log;
        }
      }
    }
  }

  lemma SentAfterEntry(s: Sys, s': Sys, e: Entry)
    requires Grows(s, s', e) && SentInv(s)
    ensures SentInv(s')
  {
    forall f | f in s'.sent ensures IsRequest(s'.log, RefOf(f)) && RefOf(f) <= Horizon(s') {
      RequestsExtend(s, s', e, RefOf(f));
    }
    forall r | r in s'.calls ensures IsRequest(s'.log, r) && r <= Horizon(s') && Original(s'.log, r) {
      RequestsExtend(s, s', e, r);
    }
  }

  lemma CallAfterEntry(s: Sys, s': Sys, e: Entry, r: nat, p: Publisher)
    requires Grows(s, s', e) && IsRequest(s.log, r) && Sound(s, r)
    requires p.role.Calling? && CallInv(s, r, p)
    ensures IsRequest(s'.log, r) && CallInv(s', r, p)
  {
    CommittedExtends(s, s', e);
    RequestsExtend(s, s', e, r);
    TrackAfterEntry(s, s', e, r);
    match p.out
    case Idle =>
    case Ready(f) =>
    case Sent(f) =>
      if IsChain(f) {
        forall q | 1 <= q <= |s'.log| && At(s'.log, q) == f ensures OpenAt(s', r, Some(q)) {
          if q <= |s.log| {
            assert At(s.log, q) == f;
            assert f in s.log;
            assert !Outstanding(s, r, e);
          } else {
            assert f == e;
          }
        }
      }
  }

  lemma PublisherAfterEntry(s: Sys, s': Sys, e: Entry, r: nat)
    requires Grows(s, s', e) && s.worker.Up? && r in s.worker.publishers
    requires PublisherInv(s, r) && Sound(s, r)
    ensures PublisherInv(s', r)
  {
    RequestsExtend(s, s', e, r);
    if s.worker.publishers[r].role.Calling? {
      CallAfterEntry(s, s', e, r, s.worker.publishers[r]);
    }
  }

  lemma ModeAfterEntry(s: Sys, s': Sys, e: Entry)
    requires Grows(s, s', e) && s.worker.Up? && ModeInv(s)
    requires AllSound(s)
    ensures ModeInv(s')
  {
    assert s'.log[..s.worker.cursor] == s.log[..s.worker.cursor];
    forall r: nat | IsRequest(s'.log, r) && r <= s.worker.target && IsRequest(s.log, r) && Decided(s, r)
      ensures Decided(s', r)
    {
      TrackAfterEntry(s, s', e, r);
    }
    forall r: nat | IsRequest(s'.log, r) && r <= s.worker.target ensures IsRequest(s.log, r) {
      RequestsExtend(s, s', e, r);
    }
  }

  lemma QueuesAfterEntry(s: Sys, s': Sys, e: Entry)
    requires Grows(s, s', e) && s.worker.Up? && PendingInv(s) && ControlsInv(s)
    ensures PendingInv(s') && ControlsInv(s')
  {
    forall r | r in s.worker.view.pending ensures IsRequest(s'.log, r) && Original(s'.log, r) {
      RequestsExtend(s, s', e, r);
    }
    forall i | 0 <= i < |s.worker.view.controls| ensures IsRequest(s'.log, s.worker.view.controls[i].0) {
      RequestsExtend(s, s', e, s.worker.view.controls[i].0);
    }
  }

  lemma InvAfterEntry(s: Sys, s': Sys, e: Entry, cfg: Config)
    requires Inv(s, cfg) && Grows(s, s', e)
    requires forall f :: f in s.sent && f.uuid == e.uuid ==> f == e
    requires forall r :: r in Publishers(s) && Publishers(s)[r].out.Ready? ==>
                           Publishers(s)[r].out.event.uuid != e.uuid
    ensures Inv(s', cfg)
  {
    UuidAfterEntry(s, s', e);
    SentAfterEntry(s, s', e);
    forall r: nat | IsRequest(s'.log, r) ensures Sound(s', r) {
      if r <= |s.log| {
        RequestsExtend(s, s', e, r);
        SoundAfterEntry(s, s', e, r);
      } else {
        SoundNewRequest(s, s', e);
      }
    }
    if s.worker.Up? {
      ModeAfterEntry(s, s', e);
      QueuesAfterEntry(s, s', e);
      forall r | r in s.worker.publishers ensures PublisherInv(s', r) {
        PublisherAfterEntry(s, s', e, r);
      }
    }
  }

  lemma MemberPublishKeepsInv(s: Sys, s': Sys, e: Entry, cfg: Config)
    requires Inv(s, cfg) && MemberPublishes(s, s', e)
    ensures Inv(s', cfg)
  {
    assert Grows(s, s', e);
    forall r | r in Publishers(s) && Publishers(s)[r].out.Ready?
      ensures Publishers(s)[r].out.event.uuid != e.uuid
    {
      assert UnusedUuid(s, Publishers(s)[r].out.event);
    }
    InvAfterEntry(s, s', e, cfg);
  }

  lemma CommitKeepsInv(s: Sys, s': Sys, e: Entry, cfg: Config)
    requires Inv(s, cfg) && Commits(s, s', e)
    ensures Inv(s', cfg)
  {
    assert Grows(s, s', e);
    forall r | r in Publishers(s) && Publishers(s)[r].out.Ready?
      ensures Publishers(s)[r].out.event.uuid != e.uuid
    {
      assert UnusedUuid(s, Publishers(s)[r].out.event);
    }
    InvAfterEntry(s, s', e, cfg);
  }
}
