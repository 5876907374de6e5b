/** The server of the transition system is the server that `_publish` is proved against. */
module SystemServer {
  import opened Protocol
  import opened WorkerView
  import opened System
  import opened SystemInvariant
  import opened SystemWorkerProof
  import opened SystemPublishProof
  import SystemTheorems
  import Rpc

  /** What the publisher of `e` sees of the system's server: the log, its one UUID, and its
      attempts. */
  function StoreFor(s: Sys, e: Entry): Rpc.Store {
    Rpc.Store(s.log, {e.uuid}, set f | f in s.sent && f.uuid == e.uuid)
  }

  /** `r`'s publisher has frozen `e` and has not been told about it. */
  ghost predicate Publishing(s: Sys, r: nat, e: Entry) {
    && r in Publishers(s) && !Publishers(s)[r].out.Idle? && Publishers(s)[r].out.event == e
  }

  lemma FrozenIsPublishable(s: Sys, r: nat, e: Entry)
    requires UuidInv(s) && Publishing(s, r, e)
    ensures Rpc.Consistent(StoreFor(s, e)) && Rpc.Publishable(StoreFor(s, e), e)
    ensures e.uuid < s.nextUuid
  {
    if Publishers(s)[r].out.Ready? {
      assert UnusedUuid(s, e);
    }
  }

  lemma OtherUuid(s: Sys, r: nat, e: Entry, q: nat)
    requires UuidInv(s) && Publishing(s, r, e) && q != r
    requires q in Publishers(s) && Publishers(s)[q].out.Ready?
    ensures Publishers(s)[q].out.event.uuid != e.uuid
  {
    assert UnusedUuid(s, Publishers(s)[q].out.event);
  }

  /** What is sent under the UUID of `e` is what its own publisher sends. */
  lemma OthersSendElsewhere(s: Sys, a: Action, s': Sys, cfg: Config, r: nat, e: Entry)
    requires UuidInv(s) && Publishing(s, r, e) && Next(s, a, s', cfg) && a != Send(r)
    ensures StoreFor(s', e).inFlight == StoreFor(s, e).inFlight
  {
    if a.Send? {
      OtherUuid(s, r, e, a.r);
    } else {
      SystemTheorems.StepGrowsLog(s, a, s', cfg);
      assert s'.sent == s.sent;
    }
  }

  lemma SendsUnder(s: Sys, s': Sys, r: nat, e: Entry)
    requires Publishing(s, r, e) && Sends(s, s', r)
    ensures StoreFor(s', e) == Rpc.WithAttempt(StoreFor(s, e), e)
  {
  }

  /** What is committed under it was sent. */
  lemma CommitsUnder(s: Sys, a: Action, s': Sys, cfg: Config, e: Entry)
    requires Next(s, a, s', cfg) && e.uuid < s.nextUuid
    ensures s.log <= s'.log
    ensures forall f :: f in s'.log && f !in s.log && f.uuid == e.uuid ==> f in s.sent
  {
  }

  lemma IsLater(a: Rpc.Store, b: Rpc.Store)
    requires Rpc.Consistent(b) && a.log <= b.log && a.mine == b.mine && a.inFlight == b.inFlight
    requires forall f :: f in b.log && f !in a.log && f.uuid in a.mine ==> f in a.inFlight
    ensures Rpc.Later(a, b)
  {
  }

  lemma IsTried(a: Rpc.Store, b: Rpc.Store, e: Entry)
    requires Rpc.Consistent(a) && Rpc.Publishable(a, e) && b == Rpc.WithAttempt(a, e)
    ensures Rpc.Tried(a, b, e)
  {
    Rpc.AttemptIsConsistent(a, e);
  }

  lemma ConsistentStore(s: Sys, e: Entry)
    requires UuidInv(s)
    ensures Rpc.Consistent(StoreFor(s, e))
  {
  }

  lemma CommittedWasInFlight(s: Sys, a: Action, s': Sys, cfg: Config, e: Entry)
    requires Next(s, a, s', cfg) && e.uuid < s.nextUuid
    ensures forall f :: f in s'.log && f !in s.log && f.uuid in StoreFor(s, e).mine ==> f in StoreFor(s, e).inFlight
  {
    CommitsUnder(s, a, s', cfg, e);
  }

  lemma OtherStepIsLater(s: Sys, a: Action, s': Sys, cfg: Config, r: nat, e: Entry)
    requires UuidInv(s) && UuidInv(s') && Publishing(s, r, e) && Next(s, a, s', cfg) && a != Send(r)
    ensures Rpc.Later(StoreFor(s, e), StoreFor(s', e)) && StoreFor(s', e).inFlight == StoreFor(s, e).inFlight
  {
    FrozenIsPublishable(s, r, e);
    OthersSendElsewhere(s, a, s', cfg, r, e);
    CommitsUnder(s, a, s', cfg, e);
    CommittedWasInFlight(s, a, s', cfg, e);
    ConsistentStore(s', e);
    IsLater(StoreFor(s, e), StoreFor(s', e));
  }

  /** Every step of the system is, for the publisher of a frozen event, time passing, except
      the one that sends it, which is the attempt itself. So what is proved about verdicts
      against that server holds of the system's publications. */
  lemma StepsAreServerSteps(s: Sys, a: Action, s': Sys, cfg: Config, r: nat, e: Entry)
    requires Inv(s, cfg) && Publishing(s, r, e) && Next(s, a, s', cfg)
    ensures a != Send(r) ==>
              && Rpc.Later(StoreFor(s, e), StoreFor(s', e))
              && StoreFor(s', e).inFlight == StoreFor(s, e).inFlight
    ensures a == Send(r) ==>
              && StoreFor(s', e) == Rpc.WithAttempt(StoreFor(s, e), e)
              && Rpc.Tried(StoreFor(s, e), StoreFor(s', e), e)
  {
    if a == Send(r) {
      FrozenIsPublishable(s, r, e);
      SendsUnder(s, s', r, e);
      IsTried(StoreFor(s, e), StoreFor(s', e), e);
    } else {
      InvAfter(s, a, s', cfg);
      OtherStepIsLater(s, a, s', cfg, r, e);
    }
  }

  lemma InvAfter(s: Sys, a: Action, s': Sys, cfg: Config)
    requires Inv(s, cfg) && Next(s, a, s', cfg)
    ensures UuidInv(s')
  {
    SystemTheorems.StepKeepsInv(s, a, s', cfg);
  }
}
