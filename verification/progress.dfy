/** What one request's outputs amount to: the stream chain, its terminal, and
    whether a reader has to report a protocol error. */
module Progress {
  import opened Protocol

  /** The part of a request's state that the log alone determines. */
  datatype Progress =
    | Progress(chain: Option<nat>, terminal: Option<nat>)
    | Fault

  const START := Progress(None, None)

  /** One reader's reaction to the entry `e` at seq `at`, for the request `req` at seq `r`. */
  function Advance(p: Progress, req: Entry, r: nat, e: Entry, at: nat): Progress
    requires req.payload.InferRequest?
  {
    if p.Fault? || p.terminal.Some? || !Matches(req, r, e) then p
    else match e.payload
      case InferResult(_, _, _, body) =>
        if p.chain.Some? then p
        else if !req.payload.streaming && body.None? then Fault
        else Progress(Some(at), if body.Some? then Some(at) else None)
      case InferAppend(_, _, prev, _) =>
        if req.payload.streaming && p.chain == Some(prev) then p.(chain := Some(at)) else Fault
      case _ =>
        if req.payload.streaming then p.(terminal := Some(at)) else p
  }

  /** Reading the whole log without ever forgetting a request. */
  function Track(log: Log, r: nat): Progress
    requires IsRequest(log, r)
    decreases |log|
  {
    if |log| == r then START
    else Advance(Track(log[..|log| - 1], r), At(log, r), r, log[|log| - 1], |log|)
  }

  lemma TrackStep(log: Log, r: nat, e: Entry)
    requires IsRequest(log, r)
    ensures IsRequest(log + [e], r)
    ensures Track(log + [e], r) == Advance(Track(log, r), At(log, r), r, e, |log| + 1)
  {
    assert (log + [e])[..|log|] == log;
  }

  lemma TrackStart(log: Log)
    requires log != [] && log[|log| - 1].payload.InferRequest?
    ensures Track(log, |log|) == START
  {
  }

  /** A terminal and a fault are final: the log only grows. */
  lemma {:induction false} TrackStable(log: Log, more: Log, r: nat)
    requires IsRequest(log, r) && log <= more
    ensures IsRequest(more, r)
    ensures Track(log, r).Fault? ==> Track(more, r).Fault?
    ensures Track(log, r).Progress? && Track(log, r).terminal.Some? ==> Track(more, r) == Track(log, r)
    decreases |more|
  {
    if |more| > |log| {
      var prefix := more[..|more| - 1];
      TrackStable(log, prefix, r);
      assert more == prefix + [more[|more| - 1]];
      TrackStep(prefix, r, more[|more| - 1]);
    } else {
      assert more == log;
    }
  }

  // ---------------------------------------------------------------- terminal resolution

  predicate MatchAt(log: Log, r: nat, t: nat)
    requires IsRequest(log, r)
  {
    r < t <= |log| && Matches(At(log, r), r, At(log, t))
  }

  predicate ResultAt(log: Log, r: nat, t: nat)
    requires IsRequest(log, r)
  {
    MatchAt(log, r, t) && At(log, t).payload.InferResult?
  }

  /** The candidates of section 6 of the protocol: the first matching result, when it
      has a body; for a streaming request also every matching end and cancel. */
  ghost predicate Candidate(log: Log, r: nat, t: nat)
    requires IsRequest(log, r)
  {
    MatchAt(log, r, t) &&
    match At(log, t).payload
    case InferResult(_, _, _, body) => body.Some? && forall u :: r < u < t ==> !ResultAt(log, r, u)
    case InferAppend(_, _, _, _) => false
    case _ => At(log, r).payload.streaming
  }

  /** `t` is the earliest candidate in seq order. */
  ghost predicate Wins(log: Log, r: nat, t: nat)
    requires IsRequest(log, r)
  {
    Candidate(log, r, t) && forall u :: r < u < t ==> !Candidate(log, r, u)
  }

  lemma CandidateExtends(log: Log, e: Entry, r: nat)
    requires IsRequest(log, r)
    ensures IsRequest(log + [e], r)
    ensures forall t :: 0 <= t <= |log| ==> MatchAt(log + [e], r, t) == MatchAt(log, r, t)
    ensures forall t :: 0 <= t <= |log| ==> ResultAt(log + [e], r, t) == ResultAt(log, r, t)
    ensures forall t :: 0 <= t <= |log| ==> Candidate(log + [e], r, t) == Candidate(log, r, t)
  {
    var more := log + [e];
    assert forall t :: 1 <= t <= |log| ==> At(more, t) == At(log, t);
  }

  // ---------------------------------------------------------------- the chain and its faults

  predicate AppendAt(log: Log, r: nat, t: nat)
    requires IsRequest(log, r)
  {
    MatchAt(log, r, t) && At(log, t).payload.InferAppend?
  }

  /** A node of the output chain: the first matching result, or an append. */
  ghost predicate Node(log: Log, r: nat, t: nat)
    requires IsRequest(log, r)
  {
    AppendAt(log, r, t) || (ResultAt(log, r, t) && forall u :: r < u < t ==> !ResultAt(log, r, u))
  }

  /** `c` is the latest node before seq `t`. */
  ghost predicate Precedes(log: Log, r: nat, c: nat, t: nat)
    requires IsRequest(log, r)
  {
    c < t && Node(log, r, c) && forall u :: c < u < t ==> !Node(log, r, u)
  }

  /** An entry no reader can fold into the request: a bodyless first result of an
      ordinary request, an append to an ordinary request, or an append that does not
      name the latest node as its predecessor. */
  ghost predicate Malformed(log: Log, r: nat, t: nat)
    requires IsRequest(log, r)
  {
    var streaming := At(log, r).payload.streaming;
    || (ResultAt(log, r, t) && Node(log, r, t) && !streaming && At(log, t).payload.resultBody.None?)
    || (AppendAt(log, r, t) && !(streaming && Precedes(log, r, At(log, t).payload.prevSeq, t)))
  }

  lemma NodeExtends(log: Log, e: Entry, r: nat)
    requires IsRequest(log, r)
    ensures IsRequest(log + [e], r)
    ensures forall t :: 0 <= t <= |log| ==> AppendAt(log + [e], r, t) == AppendAt(log, r, t)
    ensures forall t :: 0 <= t <= |log| ==> Node(log + [e], r, t) == Node(log, r, t)
    ensures forall t :: 0 <= t <= |log| ==> Malformed(log + [e], r, t) == Malformed(log, r, t)
  {
    CandidateExtends(log, e, r);
    var more := log + [e];
    assert forall t :: 0 <= t <= |log| ==> MatchAt(more, r, t) == MatchAt(log, r, t);
    assert forall t :: 1 <= t <= |log| ==> At(more, t) == At(log, t);
    assert forall t :: 0 <= t <= |log| ==> AppendAt(more, r, t) == AppendAt(log, r, t);
    assert forall t :: 0 <= t <= |log| ==> Node(more, r, t) == Node(log, r, t);
    forall t: nat | t <= |log| && AppendAt(log, r, t)
      ensures Malformed(more, r, t) == Malformed(log, r, t)
    {
      var c := At(log, t).payload.prevSeq;
      if c < t {
        assert Node(more, r, c) == Node(log, r, c);
      }
    }
  }

  /** What the state after `log` says about the entries of `log`. */
  ghost predicate Explained(log: Log, r: nat)
    requires IsRequest(log, r)
  {
    match Track(log, r)
    case Progress(chain, None) =>
      && (forall t :: r < t <= |log| ==> !Candidate(log, r, t) && !Malformed(log, r, t))
      && (chain.None? ==> forall t :: r < t <= |log| ==> !Node(log, r, t) && !ResultAt(log, r, t))
      && (chain.Some? ==> Precedes(log, r, chain.value, |log| + 1)
                          && exists t :: r < t <= |log| && ResultAt(log, r, t))
    case Progress(_, Some(w)) =>
      Wins(log, r, w) && forall t :: r < t < w ==> !Malformed(log, r, t)
    case Fault =>
      exists t :: FirstFault(log, r, t)
  }

  /** `t` is malformed, and no entry before it is malformed or a candidate. */
  ghost predicate FirstFault(log: Log, r: nat, t: nat)
    requires IsRequest(log, r)
  {
    r < t <= |log| && Malformed(log, r, t)
    && forall u :: r < u < t ==> !Candidate(log, r, u) && !Malformed(log, r, u)
  }

  lemma {:induction false} TrackExplained(log: Log, r: nat)
    requires IsRequest(log, r)
    ensures Explained(log, r)
    decreases |log|
  {
    if |log| > r {
      var prefix, e := log[..|log| - 1], log[|log| - 1];
      assert log == prefix + [e];
      TrackExplained(prefix, r);
      TrackStep(prefix, r, e);
      ExplainedStep(prefix, r, e);
    }
  }

  lemma ExplainedStep(log: Log, r: nat, e: Entry)
    requires IsRequest(log, r) && Explained(log, r)
    ensures IsRequest(log + [e], r) && Explained(log + [e], r)
  {
    var more, n := log + [e], |log| + 1;
    TrackStep(log, r, e);
    CandidateExtends(log, e, r);
    NodeExtends(log, e, r);
    assert At(more, n) == e && At(more, r) == At(log, r);
    var before := Track(log, r);
    if before.Fault? {
      var t :| FirstFault(log, r, t);
      assert FirstFault(more, r, t);
    } else if before.terminal.None? {
      if before.chain.Some? {
        assert Precedes(more, r, before.chain.value, n);
      }
      assert MatchAt(more, r, n) == Matches(At(log, r), r, e);
      ExplainedEntry(log, r, e, before.chain);
    }
  }

  /** The step of `ExplainedStep` where the new entry may decide the request. */
  lemma ExplainedEntry(log: Log, r: nat, e: Entry, chain: Option<nat>)
    requires IsRequest(log, r) && Explained(log, r) && Track(log, r) == Progress(chain, None)
    ensures IsRequest(log + [e], r) && Explained(log + [e], r)
  {
    var more, n := log + [e], |log| + 1;
    TrackStep(log, r, e);
    CandidateExtends(log, e, r);
    NodeExtends(log, e, r);
    assert At(more, n) == e && At(more, r) == At(log, r);
    var after := Track(more, r);
    if !Matches(At(log, r), r, e) {
      assert !MatchAt(more, r, n);
      assert chain.Some? ==> Precedes(more, r, chain.value, n + 1);
    } else if e.payload.InferResult? {
      assert Node(more, r, n) == chain.None?;
      if chain.Some? {
        assert Precedes(more, r, chain.value, n + 1);
        assert !Candidate(more, r, n);
      } else if after.Fault? {
        assert FirstFault(more, r, n);
      } else {
        assert after.chain == Some(n);
        assert ResultAt(more, r, n);
        assert Candidate(more, r, n) == e.payload.resultBody.Some?;
      }
    } else if e.payload.InferAppend? {
      assert Node(more, r, n);
      if after.Fault? {
        AppendOutOfPlace(log, r, e, chain);
        assert FirstFault(more, r, n);
      } else {
        assert Precedes(more, r, chain.value, n);
        assert Precedes(more, r, n, n + 1);
      }
    } else {
      assert Candidate(more, r, n) == At(log, r).payload.streaming;
      assert chain.Some? ==> Precedes(more, r, chain.value, n + 1);
    }
  }

  lemma AppendOutOfPlace(log: Log, r: nat, e: Entry, chain: Option<nat>)
    requires IsRequest(log, r) && Explained(log, r) && Track(log, r) == Progress(chain, None)
    requires Matches(At(log, r), r, e) && e.payload.InferAppend?
    requires !(At(log, r).payload.streaming && chain == Some(e.payload.prevSeq))
    ensures IsRequest(log + [e], r) && Malformed(log + [e], r, |log| + 1)
  {
    var more, n := log + [e], |log| + 1;
    NodeExtends(log, e, r);
    assert At(more, n) == e && At(more, r) == At(log, r);
    assert AppendAt(more, r, n);
    var prev := e.payload.prevSeq;
    if Precedes(more, r, prev, n) {
      assert Node(log, r, prev);
      if chain.Some? {
        assert Node(log, r, chain.value);
        assert Node(more, r, chain.value);
      }
    }
  }

  // ---------------------------------------------------------------- the two readings of the log

  /** On every log that makes no reader report a fault, the terminal that reading in
      order arrives at is the earliest candidate, and there is one exactly when the log
      holds a candidate. */
  lemma TerminalIsEarliestCandidate(log: Log, r: nat)
    requires IsRequest(log, r) && Track(log, r).Progress?
    ensures forall t: nat :: Track(log, r).terminal == Some(t) <==> Wins(log, r, t)
    ensures Track(log, r).terminal.None? <==> forall t :: !Candidate(log, r, t)
  {
    TrackExplained(log, r);
    var p := Track(log, r);
    forall t: nat ensures p.terminal == Some(t) <==> Wins(log, r, t) {
      if Wins(log, r, t) {
        if p.terminal.Some? {
          assert Candidate(log, r, p.terminal.value);
        }
      }
    }
    if p.terminal.Some? {
      assert Candidate(log, r, p.terminal.value);
    }
  }

  /** Reading reports a fault exactly when a malformed entry comes before every candidate. */
  lemma FaultIsFirstMalformed(log: Log, r: nat)
    requires IsRequest(log, r)
    ensures Track(log, r).Fault? <==> exists t :: FirstFault(log, r, t)
  {
    TrackExplained(log, r);
    if t :| FirstFault(log, r, t) {
      match Track(log, r)
      case Progress(_, Some(w)) =>
        assert Candidate(log, r, w) && !(w < t);
        if w == t {
          NotBoth(log, r, t);
        }
      case _ =>
    }
  }

  /** No entry is both a candidate and malformed. */
  lemma NotBoth(log: Log, r: nat, t: nat)
    requires IsRequest(log, r)
    ensures !(Candidate(log, r, t) && Malformed(log, r, t))
  {
  }

  // ---------------------------------------------------------------- the streamed bodies

  function Taken(p: Progress, req: Entry, r: nat, e: Entry): seq<Json>
    requires req.payload.InferRequest?
  {
    if p.Progress? && p.terminal.None? && Matches(req, r, e) && e.payload.InferAppend?
       && req.payload.streaming && p.chain == Some(e.payload.prevSeq)
    then [e.payload.chunk] else []
  }

  /** The bodies of the appends that readers of the log accept for request `r`. */
  function Bodies(log: Log, r: nat): seq<Json>
    requires IsRequest(log, r)
    decreases |log|
  {
    if |log| == r then []
    else Bodies(log[..|log| - 1], r) + Taken(Track(log[..|log| - 1], r), At(log, r), r, log[|log| - 1])
  }

  lemma BodiesStep(log: Log, r: nat, e: Entry)
    requires IsRequest(log, r)
    ensures IsRequest(log + [e], r)
    ensures Bodies(log + [e], r) == Bodies(log, r) + Taken(Track(log, r), At(log, r), r, e)
  {
    assert (log + [e])[..|log|] == log;
  }

  lemma {:induction false} BodiesGrow(log: Log, more: Log, r: nat)
    requires IsRequest(log, r) && log <= more
    ensures IsRequest(more, r) && Bodies(log, r) <= Bodies(more, r)
    ensures Track(log, r).Progress? && Track(log, r).terminal.Some? ==> Bodies(more, r) == Bodies(log, r)
    decreases |more|
  {
    if |more| > |log| {
      var prefix := more[..|more| - 1];
      BodiesGrow(log, prefix, r);
      assert more == prefix + [more[|more| - 1]];
      BodiesStep(prefix, r, more[|more| - 1]);
      TrackStable(log, prefix, r);
    } else {
      assert more == log;
    }
  }

  /** Without a matching append nothing is streamed. */
  lemma {:induction false} NoBodies(log: Log, r: nat)
    requires IsRequest(log, r) && forall t :: r < t <= |log| ==> !AppendAt(log, r, t)
    ensures Bodies(log, r) == []
    decreases |log|
  {
    if |log| > r {
      var prefix := log[..|log| - 1];
      assert log == prefix + [log[|log| - 1]];
      NodeExtends(prefix, log[|log| - 1], r);
      assert forall t :: r < t <= |prefix| ==> !AppendAt(prefix, r, t) by {
        assert forall t :: 0 <= t <= |prefix| ==> AppendAt(log, r, t) == AppendAt(prefix, r, t);
      }
      NoBodies(prefix, r);
      BodiesStep(prefix, r, log[|log| - 1]);
      assert !AppendAt(log, r, |log|);
    }
  }
}
