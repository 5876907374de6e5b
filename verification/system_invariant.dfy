/** What every reachable state of the system satisfies. */
module SystemInvariant {
  import opened Protocol
  import opened Progress
  import opened WorkerView
  import opened ProviderEvents
  import opened System

  // ---------------------------------------------------------------- events and their UUIDs

  ghost predicate UniqueLog(s: Sys) {
    && (forall i, j :: 0 <= i < j < |s.log| ==> s.log[i].uuid != s.log[j].uuid)
    && (forall e :: e in s.log ==> e.uuid < s.nextUuid)
    && (forall e :: e in s.log && IsOutput(e) ==> e in s.sent)
  }

  ghost predicate UniqueSent(s: Sys) {
    && (forall e :: e in s.sent ==> e.uuid < s.nextUuid && IsOutput(e))
    && (forall e, f :: e in s.sent && f in s.sent && e.uuid == f.uuid ==> e == f)
    && (forall e, f :: e in s.sent && f in s.log && e.uuid == f.uuid ==> e == f)
  }

  /** No other event carries the UUID of `e`. */
  ghost predicate UnusedUuid(s: Sys, e: Entry) {
    && e.uuid < s.nextUuid
    && (forall f :: f in s.log ==> f.uuid != e.uuid)
    && (forall f :: f in s.sent ==> f.uuid != e.uuid)
  }

  ghost predicate FrozenInv(s: Sys) {
    && (forall r :: r in Publishers(s) && Publishers(s)[r].out.Ready? ==> UnusedUuid(s, Publishers(s)[r].out.event))
    && (forall r :: r in Publishers(s) && Publishers(s)[r].out.Sent? ==> Publishers(s)[r].out.event in s.sent)
    && (forall r, q :: r in Publishers(s) && q in Publishers(s) && r != q
          && Publishers(s)[r].out.Ready? && Publishers(s)[q].out.Ready?
          ==> Publishers(s)[r].out.event.uuid != Publishers(s)[q].out.event.uuid)
  }

  ghost predicate UuidInv(s: Sys) {
    UniqueLog(s) && UniqueSent(s) && FrozenInv(s)
  }

  // ---------------------------------------------------------------- what was ever done for a request

  /** Requests up to here may have been worked on by some incarnation. */
  function Horizon(s: Sys): nat {
    match s.worker
    case Down => |s.log|
    case Up(mode, target, cursor, _, _, _) => if mode.Serving? then cursor else target
  }

  ghost predicate SentInv(s: Sys) {
    && (forall e :: e in s.sent ==> IsRequest(s.log, RefOf(e)) && RefOf(e) <= Horizon(s))
    && (forall r :: r in s.calls ==> IsRequest(s.log, r) && r <= Horizon(s) && Original(s.log, r))
    && (forall i, j :: 0 <= i < j < |s.calls| ==> s.calls[i] != s.calls[j])
    && Horizon(s) <= |s.log|
    && (forall r :: r in s.produced ==> r in s.calls)
  }

  function RefOf(e: Entry): nat {
    if IsReply(e) then RefSeq(e) else 0
  }

  predicate IsChain(e: Entry) {
    e.payload.InferAppend? || (e.payload.InferResult? && e.payload.resultBody.None?)
  }

  /** Which kinds of output request `r` may have, depending on whether a provider call
      was started for it. */
  ghost predicate ShapeOk(s: Sys, r: nat, e: Entry)
    requires IsRequest(s.log, r)
  {
    && Matches(At(s.log, r), r, e)
    && var streaming := At(s.log, r).payload.streaming;
    && match e.payload
       case InferResult(_, _, _, Some(_)) => streaming ==> r !in s.calls
       case InferResult(_, _, _, None) => streaming && r in s.calls
       case InferAppend(_, _, _, _) => streaming && r in s.calls
       case InferEnd(_, _, _, endStatus, _) => streaming && (endStatus != Interrupted ==> r in s.calls)
       case _ => false
  }

  /** An attempt to publish `e` was made for `r`, and the server has not committed it. */
  ghost predicate Outstanding(s: Sys, r: nat, e: Entry) {
    e in s.sent && RefOf(e) == r && e !in s.log
  }

  /** Committing `e` next continues the chain. */
  predicate Fits(p: Progress, e: Entry) {
    p.Progress?
    && (e.payload.InferResult? ==> p.chain.None?)
    && (e.payload.InferAppend? ==> p.chain == Some(e.payload.prevSeq))
  }

  /** The request is not terminal: whatever is still outstanding continues the chain
      or ends it, and no terminal output was committed. */
  ghost predicate OpenInv(s: Sys, r: nat)
    requires IsRequest(s.log, r)
  {
    var p := Track(s.log, r);
    && p.Progress?
    && (p.chain.Some? ==> At(s.log, r).payload.streaming && r in s.calls)
    && (forall e :: Outstanding(s, r, e) ==> Fits(p, e))
    && (forall e, f :: Outstanding(s, r, e) && Outstanding(s, r, f) && IsChain(e) && IsChain(f) ==> e == f)
    && (forall e :: e in s.sent && RefOf(e) == r && e in s.log ==> IsChain(e))
  }

  predicate IsHead(e: Entry) {
    e.payload.InferResult? && e.payload.resultBody.None?
  }

  ghost predicate Sound(s: Sys, r: nat)
    requires IsRequest(s.log, r)
  {
    && Track(s.log, r).Progress?
    && (forall e, f :: e in s.sent && f in s.sent && RefOf(e) == r && RefOf(f) == r && IsHead(e) && IsHead(f) ==> e == f)
    && (forall e :: e in s.sent && RefOf(e) == r ==> ShapeOk(s, r, e))
    && (Track(s.log, r).terminal.None? ==> OpenInv(s, r))
  }

  /** No incarnation has done anything for `r`. */
  ghost predicate Untouched(s: Sys, r: nat) {
    r !in s.calls && forall e :: e in s.sent ==> RefOf(e) != r
  }

  /** Nothing of `r` but possibly `e` is outstanding. */
  ghost predicate OnlyOutstanding(s: Sys, r: nat, e: Option<Entry>) {
    forall f :: Outstanding(s, r, f) ==> e == Some(f)
  }

  // ---------------------------------------------------------------- the publisher of a request

  ghost predicate OpenAt(s: Sys, r: nat, chain: Option<nat>)
    requires IsRequest(s.log, r)
  {
    Track(s.log, r).Progress? && Track(s.log, r).terminal.None? ==> Track(s.log, r).chain == chain
  }

  ghost predicate CallInv(s: Sys, r: nat, p: Publisher)
    requires IsRequest(s.log, r) && p.role.Calling?
  {
    var stage, writer, failing := p.role.stage, p.role.writer, p.role.failing;
    && r in s.calls
    && (stage.Open? ==> At(s.log, r).payload.streaming)
    && match p.out
       case Idle =>
         && !failing && OnlyOutstanding(s, r, None)
         && (stage.Fresh? ==> forall e :: e in s.sent ==> RefOf(e) != r)
         && (stage.Open? ==> writer.Some? && OpenAt(s, r, writer))
       case Ready(e) =>
         && ShapeOk(s, r, e) && OnlyOutstanding(s, r, None)
         && (IsChain(e) ==> !failing && stage.Open? && OpenAt(s, r, ChainBefore(e)))
         && (IsHead(e) ==> forall f :: f in s.sent ==> RefOf(f) != r)
         && (!IsChain(e) ==> failing || stage.Closed?)
       case Sent(e) =>
         && ShapeOk(s, r, e) && OnlyOutstanding(s, r, Some(e))
         && (IsChain(e) ==> !failing && stage.Open?)
         && (IsChain(e) ==> forall q :: 1 <= q <= |s.log| && At(s.log, q) == e ==> OpenAt(s, r, Some(q)))
         && (!IsChain(e) ==> failing || stage.Closed?)
  }

  /** The end a provider call itself yields, as against an error output. */
  predicate IsProviderEnd(e: Entry) {
    e.payload.InferEnd? && e.payload.endStatus != Interrupted
  }

  function ChainBefore(e: Entry): Option<nat> {
    if e.payload.InferAppend? then Some(e.payload.prevSeq) else None
  }

  /** A publisher other than a provider call publishes one terminal output. */
  ghost predicate OneShotInv(s: Sys, r: nat, out: Out)
    requires IsRequest(s.log, r)
  {
    !out.Idle? ==>
      ShapeOk(s, r, out.event) && !IsChain(out.event) && !IsProviderEnd(out.event)
  }

  ghost predicate PublisherInv(s: Sys, r: nat)
    requires s.worker.Up? && r in s.worker.publishers
  {
    var p, v := s.worker.publishers[r], s.worker.view;
    && r in v.requests && IsRequest(s.log, r) && r <= Horizon(s)
    && match p.role
       case Recovery =>
         && s.worker.mode.Recovering? && s.worker.mode.todo != [] && s.worker.mode.todo[0] == r
         && OneShotInv(s, r, p.out)
       case Control(_) =>
         && s.worker.mode.Serving? && v.requests[r].phase.Running? && r !in s.calls
         && OneShotInv(s, r, p.out)
       case Starting =>
         && s.worker.mode.Serving? && v.requests[r].phase.Running?
         && p.out.Idle? && Untouched(s, r) && Original(s.log, r) && r > s.worker.target
       case Calling(_, _, _) =>
         && s.worker.mode.Serving? && v.requests[r].phase.Running?
         && CallInv(s, r, p)
  }

  // ---------------------------------------------------------------- queues and modes

  ghost predicate PendingInv(s: Sys)
    requires s.worker.Up?
  {
    var v := s.worker.view;
    && (forall i, j :: 0 <= i < j < |v.pending| ==> v.pending[i] < v.pending[j])
    && (forall r :: r in v.pending ==>
          && IsRequest(s.log, r) && r <= Horizon(s) && Original(s.log, r) && Untouched(s, r)
          && r !in s.worker.publishers && r > s.worker.target
          && (r in v.requests ==> v.requests[r].phase.Pending?))
  }

  ghost predicate ControlsInv(s: Sys)
    requires s.worker.Up?
  {
    var v := s.worker.view;
    && (forall i, j :: 0 <= i < j < |v.controls| ==> v.controls[i].0 < v.controls[j].0)
    && (forall i :: 0 <= i < |v.controls| ==>
          var r := v.controls[i].0;
          && IsRequest(s.log, r) && r <= Horizon(s) && r !in s.calls
          && r !in s.worker.publishers && r !in v.pending
          && (r in v.requests ==> v.requests[r].phase.Pending?))
  }

  function Slots(w: Worker): set<nat>
    requires w.Up?
  {
    set r | r in w.publishers && (w.publishers[r].role.Starting? || w.publishers[r].role.Calling?)
  }

  ghost predicate RunningInv(s: Sys, cfg: Config)
    requires s.worker.Up?
  {
    && s.worker.view.running == |Slots(s.worker)|
    && s.worker.view.running <= cfg.maxConcurrency
    && (forall r, q ::
          r in s.worker.publishers && s.worker.publishers[r].role.Control?
          && q in s.worker.publishers && s.worker.publishers[q].role.Control?
          ==> r == q)
  }

  /** `r` has its winning terminal. */
  ghost predicate Decided(s: Sys, r: nat)
    requires IsRequest(s.log, r)
  {
    Track(s.log, r).Progress? && Track(s.log, r).terminal.Some?
  }

  ghost predicate ModeInv(s: Sys)
    requires s.worker.Up?
  {
    var w := s.worker;
    && w.cursor <= |s.log| && w.target <= |s.log|
    && Tracks(w.view, s.log[..w.cursor])
    && match w.mode
       case Scanning =>
         && w.cursor <= w.target && w.publishers == map[]
         && w.view.pending == [] && w.view.controls == []
       case Recovering(todo) =>
         && w.cursor == w.target && w.view.pending == [] && w.view.controls == []
         && (forall i, j :: 0 <= i < j < |todo| ==> todo[i] < todo[j])
         && (forall r :: r in todo ==> r in w.view.requests && w.view.requests[r].terminal.None?)
         && (forall r: nat :: IsRequest(s.log, r) && r <= w.target && r !in todo ==> Decided(s, r))
         && (forall r :: r in w.publishers ==> w.publishers[r].role.Recovery?)
       case Serving =>
         && w.target <= w.cursor
         && (forall r: nat :: IsRequest(s.log, r) && r <= w.target ==> Decided(s, r))
  }

  ghost predicate WorkerInv(s: Sys, cfg: Config) {
    s.worker.Up? ==>
      && ModeInv(s) && PendingInv(s) && ControlsInv(s) && RunningInv(s, cfg)
      && PublishersInv(s)
  }

  ghost predicate PublishersInv(s: Sys)
    requires s.worker.Up?
  {
    forall r :: r in s.worker.publishers ==> PublisherInv(s, r)
  }

  ghost predicate AllSound(s: Sys) {
    forall r: nat :: IsRequest(s.log, r) ==> Sound(s, r)
  }

  ghost predicate Inv(s: Sys, cfg: Config) {
    && UuidInv(s) && SentInv(s)
    && AllSound(s) && WorkerInv(s, cfg)
  }
}
