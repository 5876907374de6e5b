/** The Worker's protocol state as a value, and its reaction to one message.
    The class in `Worker` is proved against these functions. */
module WorkerView {
  import opened Protocol
  import opened Progress

  const DUPLICATE_REQUEST := 60005
  const MODEL_PROXY_INTERRUPTED := 60007
  const PAYLOAD_TOO_LARGE := 60008
  const INVALID_REQUEST := 60009

  datatype Config = Config(maxPayloadBytes: nat, defaultProvider: string, providers: set<string>,
                           maxConcurrency: nat)

  datatype Phase = Pending | Running | Done

  datatype State = State(
    channel: nat, requestSeq: nat, principal: nat, streamId: string, streaming: bool,
    duplicate: bool, body: Option<Json>, provider: Option<string>, phase: Phase,
    chain: Option<nat>, terminal: Option<nat>, operation: bool)

  datatype View = View(
    requests: map<nat, State>, originals: set<(nat, string)>,
    pending: seq<nat>, controls: seq<(nat, int)>, running: nat)

  const EMPTY_VIEW := View(map[], {}, [], [], 0)

  // ---------------------------------------------------------------- _accept

  /** Why a live request is refused before any provider call, if it is. */
  function RejectionCode(cfg: Config, req: Payload, duplicate: bool, provider: string): Option<int>
    requires req.InferRequest?
  {
    if duplicate then Some(DUPLICATE_REQUEST)
    else if req.size > cfg.maxPayloadBytes then Some(PAYLOAD_TOO_LARGE)
    else if provider !in cfg.providers then Some(INVALID_REQUEST)
    else None
  }

  function NewState(e: Entry, at: nat, duplicate: bool): State
    requires e.payload.InferRequest?
  {
    State(e.channel, at, e.principal, e.payload.streamId, e.payload.streaming,
          duplicate, None, None, Pending, None, None, false)
  }

  /** `payload.provider or self.config.default_provider`: an empty name is never parsed. */
  function ChosenProvider(cfg: Config, req: Payload): string
    requires req.InferRequest?
  {
    if req.provider.Some? then req.provider.value else cfg.defaultProvider
  }

  function AcceptRequest(v: View, cfg: Config, e: Entry, at: nat, historical: bool): View
    requires e.payload.InferRequest?
  {
    if at in v.requests then v
    else
      var duplicate := Key(e) in v.originals;
      var st := NewState(e, at, duplicate);
      var seen := v.(originals := v.originals + {Key(e)});
      if historical then seen.(requests := v.requests[at := st])
      else
        var provider := ChosenProvider(cfg, e.payload);
        match RejectionCode(cfg, e.payload, duplicate, provider)
        case None =>
          seen.(requests := v.requests[at := st.(provider := Some(provider), body := Some(e.payload.body))],
                pending := v.pending + [at])
        case Some(code) =>
          seen.(requests := v.requests[at := st.(provider := Some(provider))],
                controls := v.controls + [(at, code)])
  }

  /** How a state that is not terminal takes a reply addressed to it; None is ProtocolError. */
  function AcceptReply(st: State, e: Entry, at: nat): Option<State>
    requires IsReply(e)
  {
    match e.payload
    case InferResult(_, _, _, body) =>
      if st.chain.Some? then Some(st)
      else if !st.streaming && body.None? then None
      else if body.Some? then Some(st.(chain := Some(at), terminal := Some(at), body := None))
      else Some(st.(chain := Some(at)))
    case InferAppend(_, _, prev, _) =>
      if !st.streaming || st.chain.None? || prev != st.chain.value then None
      else Some(st.(chain := Some(at)))
    case _ =>
      if !st.streaming then Some(st) else Some(st.(terminal := Some(at), body := None))
  }

  /** `_retire_locked`: a terminal state is forgotten unless its task still runs. */
  function Retire(v: View, r: nat): View {
    if r in v.requests && v.requests[r].terminal.Some? && v.requests[r].phase != Running
    then v.(requests := v.requests - {r})
    else v
  }

  // ---------------------------------------------------------------- tasks

  function SetPhase(v: View, r: nat, phase: Phase): View {
    if r in v.requests then v.(requests := v.requests[r := v.requests[r].(phase := phase)]) else v
  }

  /** A provider task has taken the request body and installed its operation. */
  function BeginCall(v: View, r: nat): View {
    if r in v.requests
    then v.(requests := v.requests[r := v.requests[r].(body := None, operation := true)])
    else v
  }

  /** The end of a provider task: its slot and what it held are released. */
  function Release(v: View, r: nat): View {
    var slot := v.(running := if v.running > 0 then v.running - 1 else 0);
    if r in v.requests
    then Retire(slot.(requests := v.requests[r := v.requests[r].(phase := Done, body := None, operation := false)]), r)
    else slot
  }

  /** The scheduler claims a slot for the first waiting request, unless it is gone. */
  function TakePending(v: View): View
    requires v.pending != []
  {
    var popped, r := v.(pending := v.pending[1..]), v.pending[0];
    if r in v.requests then SetPhase(popped, r, Running).(running := v.running + 1) else popped
  }

  /** The control thread takes the first waiting rejection, unless its request is gone. */
  function TakeControl(v: View): View
    requires v.controls != []
  {
    SetPhase(v.(controls := v.controls[1..]), v.controls[0].0, Running)
  }

  function FinishControl(v: View, r: nat): View {
    Retire(SetPhase(v, r, Done), r)
  }

  function Accept(v: View, cfg: Config, e: Entry, at: nat, historical: bool): Option<View> {
    match e.payload
    case Foreign => Some(v)
    case InferRequest(_, _, _, _, _) => Some(AcceptRequest(v, cfg, e, at, historical))
    case _ =>
      var r := RefSeq(e);
      if r !in v.requests then Some(v)
      else
        var st := v.requests[r];
        if st.channel != e.channel || st.streamId != e.payload.streamId || st.terminal.Some? then Some(v)
        else match AcceptReply(st, e, at)
          case None => None
          case Some(next) =>
            var updated := v.(requests := v.requests[r := next]);
            Some(if next.terminal.Some? then Retire(updated, r) else updated)
  }

  // ---------------------------------------------------------------- agreement with the log

  ghost predicate StateOf(log: Log, r: nat, st: State) {
    IsRequest(log, r) &&
    var e := At(log, r);
    && st.requestSeq == r && st.channel == e.channel && st.principal == e.principal
    && st.streamId == e.payload.streamId && st.streaming == e.payload.streaming
    && st.duplicate == !Original(log, r)
  }

  /** The view knows about request `r` what `seen` determines, except that it may have
      forgotten a request that is terminal. */
  ghost predicate Tracked(v: View, seen: Log, r: nat) {
    if r in v.requests then
      StateOf(seen, r, v.requests[r])
      && Track(seen, r) == Progress(v.requests[r].chain, v.requests[r].terminal)
    else
      IsRequest(seen, r) ==> Track(seen, r).Progress? && Track(seen, r).terminal.Some?
  }

  ghost predicate Claimed(seen: Log, k: (nat, string)) {
    exists q :: IsRequest(seen, q) && Key(At(seen, q)) == k
  }

  ghost predicate Tracks(v: View, seen: Log) {
    && (forall r: nat :: Tracked(v, seen, r))
    && (forall k :: k in v.originals <==> Claimed(seen, k))
  }

  lemma StateOfExtends(seen: Log, e: Entry, r: nat, st: State)
    requires StateOf(seen, r, st)
    ensures StateOf(seen + [e], r, st)
  {
    OriginalExtends(seen, seen + [e], r);
  }

  lemma ClaimsGrow(seen: Log, e: Entry, k: (nat, string))
    ensures Claimed(seen + [e], k) <==> Claimed(seen, k) || (e.payload.InferRequest? && Key(e) == k)
  {
    var more := seen + [e];
    assert At(more, |seen| + 1) == e;
    if q: nat :| IsRequest(seen, q) && Key(At(seen, q)) == k {
      assert IsRequest(more, q) && At(more, q) == At(seen, q);
    }
    if q: nat :| IsRequest(more, q) && Key(At(more, q)) == k {
      if q <= |seen| {
        assert IsRequest(seen, q) && At(more, q) == At(seen, q);
      }
    }
    if e.payload.InferRequest? && Key(e) == k {
      assert IsRequest(more, |seen| + 1);
    }
  }

  lemma DuplicateIsClaimed(seen: Log, e: Entry)
    requires e.payload.InferRequest?
    ensures IsRequest(seen + [e], |seen| + 1)
    ensures Original(seen + [e], |seen| + 1) == !Claimed(seen, Key(e))
  {
    var more, n := seen + [e], |seen| + 1;
    assert At(more, n) == e;
    if q: nat :| IsRequest(seen, q) && Key(At(seen, q)) == Key(e) {
      assert IsRequest(more, q) && At(more, q) == At(seen, q);
    }
    if !Original(more, n) {
      var q :| 1 <= q < n && IsRequest(more, q) && Key(At(more, q)) == Key(At(more, n));
      assert IsRequest(seen, q) && At(more, q) == At(seen, q);
    }
  }

  /** One request, one entry: the view stays in agreement with the log. */
  lemma AcceptRequestTracked(v: View, cfg: Config, seen: Log, e: Entry, historical: bool, r: nat)
    requires Tracked(v, seen, r) && Tracked(v, seen, |seen| + 1) && e.payload.InferRequest?
    requires Key(e) in v.originals <==> Claimed(seen, Key(e))
    ensures Tracked(AcceptRequest(v, cfg, e, |seen| + 1, historical), seen + [e], r)
  {
    var more, n := seen + [e], |seen| + 1;
    assert At(more, n) == e;
    assert n !in v.requests;
    if r == n {
      TrackStart(more);
      DuplicateIsClaimed(seen, e);
    } else if IsRequest(seen, r) {
      TrackStep(seen, r, e);
      if r in v.requests {
        StateOfExtends(seen, e, r, v.requests[r]);
      }
    }
  }

  lemma AcceptReplyTracked(v: View, cfg: Config, seen: Log, e: Entry, historical: bool, r: nat)
    requires Tracked(v, seen, r) && !e.payload.InferRequest?
    requires Accept(v, cfg, e, |seen| + 1, historical).Some?
    ensures Tracked(Accept(v, cfg, e, |seen| + 1, historical).value, seen + [e], r)
  {
    assert At(seen + [e], |seen| + 1) == e;
    if IsRequest(seen, r) {
      TrackStep(seen, r, e);
      if r in v.requests {
        StateOfExtends(seen, e, r, v.requests[r]);
        if !Matches(At(seen, r), r, e) {
          UnmatchedReply(v, cfg, e, |seen| + 1, historical, r);
        }
      }
    }
  }

  /** A reply addressed elsewhere changes nothing about `r`. */
  lemma UnmatchedReply(v: View, cfg: Config, e: Entry, at: nat, historical: bool, r: nat)
    requires !e.payload.InferRequest? && r in v.requests
    requires !(IsReply(e) && RefSeq(e) == r && e.channel == v.requests[r].channel
               && e.payload.streamId == v.requests[r].streamId)
    requires Accept(v, cfg, e, at, historical).Some?
    ensures r in Accept(v, cfg, e, at, historical).value.requests
    ensures Accept(v, cfg, e, at, historical).value.requests[r] == v.requests[r]
  {
  }

  /** One message keeps the view and the log in agreement. */
  lemma AcceptTracks(v: View, cfg: Config, seen: Log, e: Entry, historical: bool)
    requires Tracks(v, seen)
    requires Accept(v, cfg, e, |seen| + 1, historical).Some?
    ensures Tracks(Accept(v, cfg, e, |seen| + 1, historical).value, seen + [e])
  {
    var more, n := seen + [e], |seen| + 1;
    var next := Accept(v, cfg, e, n, historical).value;
    assert Tracked(v, seen, n);
    forall r: nat ensures Tracked(next, more, r) {
      assert Tracked(v, seen, r);
      if e.payload.InferRequest? {
        AcceptRequestTracked(v, cfg, seen, e, historical, r);
      } else {
        AcceptReplyTracked(v, cfg, seen, e, historical, r);
      }
    }
    assert next.originals == v.originals + if e.payload.InferRequest? then {Key(e)} else {};
    forall k ensures k in next.originals <==> Claimed(more, k) {
      ClaimsGrow(seen, e, k);
    }
  }

  /** The Worker reports ProtocolError exactly when the entry takes its request to a
      fault that no reader of the log can avoid. */
  lemma AcceptFailsOnlyOnFault(v: View, cfg: Config, seen: Log, e: Entry, historical: bool)
    requires Tracks(v, seen)
    ensures Accept(v, cfg, e, |seen| + 1, historical).None? <==>
            IsReply(e) && IsRequest(seen, RefSeq(e)) && Track(seen + [e], RefSeq(e)).Fault?
  {
    if IsReply(e) {
      assert Tracked(v, seen, RefSeq(e));
      if IsRequest(seen, RefSeq(e)) {
        TrackStep(seen, RefSeq(e), e);
      }
    }
  }

  /** Reading a log from the start; None when an entry raises ProtocolError. */
  function Fold(log: Log, cfg: Config): Option<View>
    decreases |log|
  {
    if log == [] then Some(EMPTY_VIEW)
    else match Fold(log[..|log| - 1], cfg)
      case None => None
      case Some(v) => Accept(v, cfg, log[|log| - 1], |log|, true)
  }

  ghost predicate OnlyUnfinished(v: View) {
    forall r :: r in v.requests ==> v.requests[r].terminal.None? && v.requests[r].phase == Pending
  }

  lemma {:induction false} FoldTracks(log: Log, cfg: Config)
    requires Fold(log, cfg).Some?
    ensures Tracks(Fold(log, cfg).value, log) && OnlyUnfinished(Fold(log, cfg).value)
    decreases |log|
  {
    if log != [] {
      var prefix, e := log[..|log| - 1], log[|log| - 1];
      assert log == prefix + [e];
      FoldTracks(prefix, cfg);
      AcceptTracks(Fold(prefix, cfg).value, cfg, prefix, e, true);
    }
  }

  /** A Worker that forgets terminal requests fails on exactly the logs on which one that
      never forgets does. */
  lemma {:induction false} FoldFailsOnlyOnFault(log: Log, cfg: Config)
    ensures Fold(log, cfg).None? <==> exists r :: IsRequest(log, r) && Track(log, r).Fault?
    decreases |log|
  {
    if log != [] {
      var prefix, e := log[..|log| - 1], log[|log| - 1];
      assert log == prefix + [e];
      FoldFailsOnlyOnFault(prefix, cfg);
      if Fold(prefix, cfg).None? {
        var r :| IsRequest(prefix, r) && Track(prefix, r).Fault?;
        TrackStable(prefix, log, r);
      } else {
        var v := Fold(prefix, cfg).value;
        FoldTracks(prefix, cfg);
        AcceptFailsOnlyOnFault(v, cfg, prefix, e, true);
        if r: nat :| IsRequest(log, r) && Track(log, r).Fault? {
          assert r <= |prefix| by {
            if r == |log| { TrackStart(log); }
          }
          assert At(log, r) == At(prefix, r);
          TrackStep(prefix, r, e);
          assert Tracked(v, prefix, r);
        }
      }
    }
  }

  /** After a scan that did not fail, a request is remembered exactly when the log holds no
      candidate terminal for it, and what was remembered is the chain so far. */
  lemma FoldForgetsExactlyTheTerminal(log: Log, cfg: Config, r: nat)
    requires Fold(log, cfg).Some? && IsRequest(log, r)
    ensures r in Fold(log, cfg).value.requests <==> forall t :: !Candidate(log, r, t)
    ensures r in Fold(log, cfg).value.requests ==>
              Fold(log, cfg).value.requests[r].duplicate == !Original(log, r)
  {
    FoldTracks(log, cfg);
    assert Tracked(Fold(log, cfg).value, log, r);
    TerminalIsEarliestCandidate(log, r);
  }
}
