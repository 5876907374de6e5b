/** Reliable publication of one frozen event. */
module Publishing {
  import opened Protocol
  import opened Rpc

  datatype CommitState = NOT_COMMITTED | COMMITTED | UNKNOWN

  /** A hook that refuses the event before its first attempt is `Vetoed`; RPCStopped that
      escapes is `NeverStarted`. */
  datatype Verdict =
    | Published(seqNo: nat)
    | PublishError(commitState: CommitState, eventUuid: Option<nat>, lastStatus: Status)
    | NeverStarted
    | Vetoed

  datatype Draft = Draft(channel: nat, principal: nat, payload: Payload)

  function Freeze(draft: Draft, uuid: nat): Entry {
    Entry(uuid, draft.channel, draft.principal, draft.payload)
  }

  /** No attempt for `uuid` was made that could still commit, and none has. */
  predicate Unpublished(st: Store, uuid: nat) {
    && uuid in st.mine && !HasUuid(st.log, uuid)
    && forall e :: e in st.inFlight ==> e.uuid != uuid
  }

  /** What a verdict means when `_publish`, called in `a`, returns it in `b`. */
  predicate Justified(a: Store, b: Store, draft: Draft, uuid: Option<nat>, verdict: Verdict, publishes: nat) {
    && Later(a, b)
    && (uuid.None? ==> publishes == 0 && b.inFlight == a.inFlight)
    && (uuid.Some? ==>
          && uuid.value in b.mine && uuid.value !in a.mine
          && Publishable(b, Freeze(draft, uuid.value)))
    && match verdict
       case Published(q) =>
         uuid.Some? && 1 <= q <= |b.log| && At(b.log, q) == Freeze(draft, uuid.value)
       case PublishError(NOT_COMMITTED, u, _) =>
         u == uuid && (uuid.Some? ==> Unpublished(b, uuid.value))
       case PublishError(COMMITTED, u, _) =>
         u == uuid && uuid.Some? && Freeze(draft, uuid.value) in b.log
       case PublishError(UNKNOWN, u, _) =>
         u == uuid && uuid.Some? && publishes > 0 && Freeze(draft, uuid.value) in b.inFlight
       case _ =>
         publishes == 0 && b.inFlight == a.inFlight && (uuid.Some? ==> Unpublished(b, uuid.value))
  }

  lemma LaterThenTried(a: Store, b: Store, c: Store, e: Entry)
    requires Later(a, b) && Tried(b, c, e) && e.uuid !in a.mine
    ensures Later(a, c)
  {
  }

  lemma StillUnpublished(a: Store, b: Store, uuid: nat)
    requires Later(a, b) && Unpublished(a, uuid) && b.inFlight == a.inFlight
    ensures Unpublished(b, uuid)
  {
    NeverCommits(a, b, uuid);
  }

  lemma UnpublishedIsPublishable(st: Store, e: Entry)
    requires Unpublished(st, e.uuid)
    ensures Publishable(st, e)
  {
    forall f | f in st.log ensures f.uuid != e.uuid {
      var i :| 0 <= i < |st.log| && st.log[i] == f;
    }
  }

  /** Why the loop over the frozen event ended with this verdict, given all the replies had
      between `heard` and `now`. */
  ghost predicate Accounted(heard: seq<Reply>, now: seq<Reply>, verdict: Verdict, publishes: nat, maxRetries: nat,
                            stopped: bool) {
    && heard <= now
    && match verdict
       case Published(_) => publishes > 0
       case PublishError(NOT_COMMITTED, _, status) =>
         publishes == 1 && now == heard + [Refused(status)] && ProvesUncommitted(status)
       case PublishError(UNKNOWN, _, status) =>
         && |now| == |heard| + publishes && publishes > 0 && now[|now| - 1] == Refused(status)
         && (publishes == maxRetries + 1 || ProvesUncommitted(status) || stopped)
       case PublishError(COMMITTED, _, status) =>
         && publishes > 0 && |heard| + publishes <= |now|
         && now[|heard| + publishes - 1] == Refused(AlreadyExists)
         && (stopped || GaveUp(now[..|heard| + publishes], now, maxRetries, status, stopped))
       case NeverStarted => stopped && now == heard
       case Vetoed => false
  }

  /** The replies between `heard` and `now` brought this UUID. */
  ghost predicate Obtained(heard: seq<Reply>, now: seq<Reply>, uuid: nat, maxRetries: nat) {
    exists asked :: now == heard + asked && Attempts(asked, maxRetries, Value(uuid))
  }

  /** The same for a whole `_publish`, which obtains the UUID first. */
  ghost predicate Explained(heard: seq<Reply>, now: seq<Reply>, verdict: Verdict, uuid: Option<nat>, publishes: nat,
                            maxRetries: nat, stopped: bool) {
    match uuid
    case Some(value) =>
      if verdict.Vetoed? then Obtained(heard, now, value, maxRetries)
      else exists mid :: ExplainedFrom(heard, mid, now, verdict, value, publishes, maxRetries, stopped)
    case None =>
      match verdict
      case PublishError(NOT_COMMITTED, _, status) => GaveUp(heard, now, maxRetries, status, stopped)
      case NeverStarted => stopped && now == heard
      case Vetoed => now == heard
      case _ => false
  }

  ghost predicate ExplainedFrom(heard: seq<Reply>, mid: seq<Reply>, now: seq<Reply>, verdict: Verdict, uuid: nat,
                                publishes: nat, maxRetries: nat, stopped: bool) {
    Obtained(heard, mid, uuid, maxRetries) && Accounted(mid, now, verdict, publishes, maxRetries, stopped)
  }

  /** `_publish`. The verdict is sound whatever the server does, at whatever point the
      client is stopped; at most `maxRetries + 1` attempts are made, and none is spared
      without a reason. */
  method Publish(server: Server, draft: Draft, maxRetries: nat, stoppable: bool, hooked: bool,
                 refusesPayload: bool, refusesPublish: bool)
    returns (verdict: Verdict, uuid: Option<nat>, publishes: nat)
    requires server.Valid()
    modifies server
    ensures server.Valid()
    ensures Justified(old(server.st), server.st, draft, uuid, verdict, publishes)
    ensures Explained(old(server.heard), server.heard, verdict, uuid, publishes, maxRetries, server.stopped)
    ensures publishes <= maxRetries + 1 && (old(server.stopped) ==> server.stopped)
    ensures verdict.NeverStarted? ==> stoppable || hooked
    ensures old(server.stopped) && (stoppable || hooked) && !refusesPayload ==> verdict.NeverStarted?
    ensures verdict.Vetoed? <==> refusesPayload || (refusesPublish && uuid.Some?)
  {
    uuid, publishes := None, 0;
    ghost var start := server.st;
    LaterReflexive(start);
    if refusesPayload {
      return Vetoed, uuid, publishes;
    }
    var obtained, _ := CallRpc(server, GetUuid, maxRetries, stoppable, hooked);
    if obtained.Stopped? {
      return NeverStarted, uuid, publishes;
    }
    if obtained.Error? {
      return PublishError(NOT_COMMITTED, None, obtained.status), uuid, publishes;
    }
    uuid := Some(obtained.value);
    ghost var mid := server.heard;
    assert Obtained(old(server.heard), mid, obtained.value, maxRetries);
    if refusesPublish {
      NotYetPublished(start, server.st, Freeze(draft, obtained.value));
      return Vetoed, uuid, publishes;
    }
    verdict, publishes := PublishFrozen(server, draft, obtained.value, maxRetries, stoppable, hooked, start);
    assert ExplainedFrom(old(server.heard), mid, server.heard, verdict, obtained.value, publishes, maxRetries,
                         server.stopped);
  }

  lemma HeardGrows(heard: seq<Reply>, now: seq<Reply>, verdict: Verdict, uuid: Option<nat>, publishes: nat,
                   maxRetries: nat, stopped: bool)
    requires Explained(heard, now, verdict, uuid, publishes, maxRetries, stopped)
    ensures heard <= now
  {
    if uuid.Some? && !verdict.Vetoed? {
      var mid :| ExplainedFrom(heard, mid, now, verdict, uuid.value, publishes, maxRetries, stopped);
      assert heard <= mid <= now;
    }
  }

  /** What holds before each attempt. */
  ghost predicate Underway(start: Store, now: Store, e: Entry, uncertain: bool) {
    && Consistent(now) && Later(start, now) && Publishable(now, e) && e.uuid !in start.mine
    && (if uncertain then e in now.inFlight else Unpublished(now, e.uuid) && now.inFlight == start.inFlight)
  }

  lemma UnderwayLater(start: Store, a: Store, b: Store, e: Entry, uncertain: bool)
    requires Underway(start, a, e, uncertain) && Later(a, b) && b.inFlight == a.inFlight
    ensures Underway(start, b, e, uncertain)
  {
    LaterTransitive(start, a, b);
    LaterKeepsPublishable(a, b, e);
    if !uncertain {
      StillUnpublished(a, b, e.uuid);
    }
  }

  /** The publication loop, from the frozen event on. */
  method PublishFrozen(server: Server, draft: Draft, uuid: nat, maxRetries: nat, stoppable: bool, hooked: bool,
                       ghost start: Store)
    returns (verdict: Verdict, publishes: nat)
    requires Consistent(start) && server.Valid() && Later(start, server.st)
    requires server.st.inFlight == start.inFlight
    requires uuid in server.st.mine && uuid !in start.mine && !HasUuid(server.st.log, uuid)
    modifies server
    ensures server.Valid()
    ensures Justified(start, server.st, draft, Some(uuid), verdict, publishes)
    ensures Accounted(old(server.heard), server.heard, verdict, publishes, maxRetries, server.stopped)
    ensures publishes <= maxRetries + 1 && (old(server.stopped) ==> server.stopped)
    ensures verdict.NeverStarted? ==> publishes == 0 && (stoppable || hooked)
  {
    var e := Freeze(draft, uuid);
    NotYetPublished(start, server.st, e);
    ghost var heard := server.heard;
    var lastError := NoStatus;
    publishes := 0;
    while publishes <= maxRetries
      invariant Underway(start, server.st, e, publishes > 0)
      invariant publishes <= maxRetries && (old(server.stopped) ==> server.stopped)
      invariant HeardSoFar(heard, server.heard, publishes, lastError)
      decreases maxRetries + 1 - publishes
    {
      var stop := Check(server, stoppable, hooked, start, e, publishes > 0);
      if stop {
        StoppedIsJustified(start, server.st, draft, uuid, publishes, lastError, heard, server.heard, maxRetries);
        return StoppedVerdict(uuid, publishes, lastError), publishes;
      }
      var done;
      done, lastError := PublishOnce(server, draft, uuid, publishes, maxRetries, stoppable, hooked, start, heard);
      publishes := publishes + 1;
      if done.Some? {
        return done.value, publishes;
      }
    }
    assert false;
  }

  /** The replies to the attempts so far, none of which settled the matter. */
  ghost predicate HeardSoFar(heard: seq<Reply>, now: seq<Reply>, publishes: nat, lastError: Status) {
    heard <= now && |now| == |heard| + publishes && (publishes > 0 ==> now[|now| - 1] == Refused(lastError))
  }

  /** RPCStopped before an attempt: nothing was published, or nobody knows. */
  function StoppedVerdict(uuid: nat, publishes: nat, lastError: Status): Verdict {
    if publishes > 0 then PublishError(UNKNOWN, Some(uuid), lastError) else NeverStarted
  }

  lemma StoppedIsJustified(start: Store, st: Store, draft: Draft, uuid: nat, publishes: nat, lastError: Status,
                           heard: seq<Reply>, now: seq<Reply>, maxRetries: nat)
    requires Underway(start, st, Freeze(draft, uuid), publishes > 0) && HeardSoFar(heard, now, publishes, lastError)
    ensures Justified(start, st, draft, Some(uuid), StoppedVerdict(uuid, publishes, lastError), publishes)
    ensures Accounted(heard, now, StoppedVerdict(uuid, publishes, lastError), publishes, maxRetries, true)
  {
  }

  /** One attempt of the loop with what follows from its reply: a verdict, or the wait before
      the next attempt. */
  method PublishOnce(server: Server, draft: Draft, uuid: nat, publishes: nat, maxRetries: nat, stoppable: bool,
                     hooked: bool, ghost start: Store, ghost heard: seq<Reply>)
    returns (done: Option<Verdict>, lastError: Status)
    requires server.Valid() && server.cleared && publishes <= maxRetries
    requires Underway(start, server.st, Freeze(draft, uuid), publishes > 0)
    requires heard <= server.heard && |server.heard| == |heard| + publishes
    modifies server
    ensures server.Valid() && (old(server.stopped) ==> server.stopped)
    ensures match done
            case Some(verdict) =>
              && Justified(start, server.st, draft, Some(uuid), verdict, publishes + 1)
              && Accounted(heard, server.heard, verdict, publishes + 1, maxRetries, server.stopped)
              && !verdict.NeverStarted?
            case None =>
              && publishes < maxRetries && Underway(start, server.st, Freeze(draft, uuid), true)
              && HeardSoFar(heard, server.heard, publishes + 1, lastError)
  {
    var e := Freeze(draft, uuid);
    var reply := Attempt(server, start, e, publishes > 0);
    lastError := NoStatus;
    if reply.Ok? {
      return Some(Published(reply.value)), lastError;
    }
    lastError := reply.status;
    if reply.status == AlreadyExists {
      ghost var now := server.heard;
      var verdict := Reconcile(server, draft, uuid, maxRetries, stoppable, hooked, start);
      assert server.heard[..|now|] == now;
      return Some(verdict), lastError;
    }
    if ProvesUncommitted(reply.status) {
      var state := if publishes > 0 then UNKNOWN else NOT_COMMITTED;
      return Some(PublishError(state, Some(uuid), reply.status)), lastError;
    }
    if publishes == maxRetries {
      return Some(PublishError(UNKNOWN, Some(uuid), reply.status)), lastError;
    }
    var stopped := Delay(server, stoppable, start, e);
    if stopped {
      return Some(PublishError(UNKNOWN, Some(uuid), reply.status)), lastError;
    }
    return None, lastError;
  }

  /** The look at the stop event and the hook before an attempt. */
  method Check(server: Server, stoppable: bool, hooked: bool, ghost start: Store, ghost e: Entry, ghost uncertain: bool)
    returns (stop: bool)
    requires server.Valid() && Underway(start, server.st, e, uncertain)
    modifies server
    ensures server.Valid() && Underway(start, server.st, e, uncertain)
    ensures (!stop ==> server.cleared) && server.heard == old(server.heard)
    ensures stop ==> server.stopped && (stoppable || hooked)
    ensures old(server.stopped) ==> server.stopped
    ensures old(server.stopped) && (stoppable || hooked) ==> stop
  {
    ghost var before := server.st;
    stop := IsStopped(server, stoppable, hooked);
    UnderwayLater(start, before, server.st, e, uncertain);
  }

  /** One attempt, and what its reply says about the log. */
  method Attempt(server: Server, ghost start: Store, e: Entry, ghost uncertain: bool) returns (reply: Reply)
    requires server.Valid() && server.cleared && Underway(start, server.st, e, uncertain)
    modifies server
    ensures server.Valid() && Later(start, server.st)
    ensures server.heard == old(server.heard) + [reply] && (old(server.stopped) ==> server.stopped)
    ensures reply.Ok? ==> 1 <= reply.value <= |server.st.log| && At(server.st.log, reply.value) == e
    ensures reply == Refused(AlreadyExists) ==> e in server.st.log
    ensures reply.Refused? && reply.status != AlreadyExists ==>
              Underway(start, server.st, e, uncertain || !ProvesUncommitted(reply.status))
    ensures Publishable(server.st, e) && e.uuid !in start.mine
  {
    ghost var before := server.st;
    reply := server.PublishAutoSeq(e);
    reply := Checked(reply);
    LaterThenTried(start, before, server.st, e);
    if reply.Refused? && ProvesUncommitted(reply.status) {
      UnderwayLater(start, before, server.st, e, uncertain);
    }
  }

  /** The wait between two attempts, which the stop event cuts short. */
  method Delay(server: Server, stoppable: bool, ghost start: Store, ghost e: Entry) returns (stop: bool)
    requires server.Valid() && Underway(start, server.st, e, true)
    modifies server
    ensures server.Valid() && Underway(start, server.st, e, true)
    ensures stop == (stoppable && server.stopped) && server.heard == old(server.heard)
    ensures old(server.stopped) ==> server.stopped
  {
    ghost var before := server.st;
    server.Pass();
    UnderwayLater(start, before, server.st, e, true);
    stop := stoppable && server.stopped;
  }

  lemma NotYetPublished(start: Store, mid: Store, e: Entry)
    requires Consistent(start) && Later(start, mid) && mid.inFlight == start.inFlight
    requires e.uuid in mid.mine && e.uuid !in start.mine && !HasUuid(mid.log, e.uuid)
    ensures Underway(start, mid, e, false)
  {
    UnpublishedIsPublishable(mid, e);
  }

  /** ALREADY_EXISTS proves the commit; the seq is looked up by UUID. */
  method Reconcile(server: Server, draft: Draft, uuid: nat, maxRetries: nat, stoppable: bool, hooked: bool,
                   ghost start: Store)
    returns (verdict: Verdict)
    requires server.Valid() && Later(start, server.st)
    requires Publishable(server.st, Freeze(draft, uuid)) && Freeze(draft, uuid) in server.st.log
    modifies server
    ensures server.Valid() && Later(start, server.st) && Publishable(server.st, Freeze(draft, uuid))
    ensures Freeze(draft, uuid) in server.st.log
    ensures match verdict
            case Published(q) => 1 <= q <= |server.st.log| && At(server.st.log, q) == Freeze(draft, uuid)
            case PublishError(COMMITTED, u, status) =>
              u == Some(uuid)
              && (server.stopped || GaveUp(old(server.heard), server.heard, maxRetries, status, server.stopped))
            case _ => false
    ensures old(server.heard) <= server.heard && (old(server.stopped) ==> server.stopped)
  {
    ghost var before := server.st;
    var looked, _ := CallRpc(server, GetSeqByUuid(uuid), maxRetries, stoppable, hooked);
    LaterTransitive(start, before, server.st);
    LaterKeepsPublishable(before, server.st, Freeze(draft, uuid));
    match looked
    case Stopped => return PublishError(COMMITTED, Some(uuid), AlreadyExists);
    case Error(status) => return PublishError(COMMITTED, Some(uuid), status);
    case Value(q) =>
      OneEntryPerUuid(server.st, Freeze(draft, uuid), q);
      return Published(q);
  }

  /** A UUID names at most one position of the log. */
  lemma OneEntryPerUuid(st: Store, e: Entry, q: nat)
    requires Consistent(st) && e in st.log && 1 <= q <= |st.log| && At(st.log, q).uuid == e.uuid
    ensures At(st.log, q) == e
  {
    var i :| 0 <= i < |st.log| && st.log[i] == e;
    SameUuidSamePlace(st, i, q - 1);
  }

  lemma SameUuidSamePlace(st: Store, i: nat, j: nat)
    requires Consistent(st) && i < |st.log| && j < |st.log| && st.log[i].uuid == st.log[j].uuid
    ensures i == j
  {
  }

  // ---------------------------------------------------------------- many publications

  /** One call of `_publish` and what it returned. */
  datatype Publication = Publication(before: Store, after: Store, draft: Draft, uuid: Option<nat>,
                                     verdict: Verdict, publishes: nat)

  ghost predicate IsJustified(p: Publication) {
    Consistent(p.before) && Justified(p.before, p.after, p.draft, p.uuid, p.verdict, p.publishes)
  }

  /** A publisher's calls, one after the other, and the store at some later moment. */
  ghost predicate History(calls: seq<Publication>, end: Store)
    decreases |calls|
  {
    calls == [] ||
    var last := calls[|calls| - 1];
    IsJustified(last) && Later(last.after, end) && History(calls[..|calls| - 1], last.before)
  }

  lemma ThenLater(a: Store, p: Publication, b: Store)
    requires Later(a, p.before) && Later(p.before, p.after) && Later(p.after, b)
    ensures Later(a, b)
  {
    LaterTransitive(a, p.before, p.after);
    LaterTransitive(a, p.after, b);
  }

  lemma JustifiedIsLater(p: Publication)
    requires IsJustified(p)
    ensures Later(p.before, p.after)
  {
  }

  lemma {:induction false} LaterEnd(calls: seq<Publication>, end: Store, i: nat)
    requires History(calls, end) && i < |calls|
    ensures IsJustified(calls[i]) && Later(calls[i].after, end)
    decreases |calls|
  {
    var last := calls[|calls| - 1];
    if i < |calls| - 1 {
      LaterEnd(calls[..|calls| - 1], last.before, i);
      JustifiedIsLater(last);
      ThenLater(calls[i].after, last, end);
    }
  }

  /** The event of one publication, as the log has it for good: its verdict was right, and
      the event is there at most once. */
  ghost predicate Settled(p: Publication, log: Log) {
    p.uuid.Some? ==>
      var e := Freeze(p.draft, p.uuid.value);
      && (forall q: nat :: 1 <= q <= |log| && At(log, q).uuid == e.uuid ==> At(log, q) == e)
      && (forall q: nat, q': nat :: 1 <= q < q' <= |log| ==> !(At(log, q) == e && At(log, q') == e))
      && match p.verdict
         case Published(q) => 1 <= q <= |log| && At(log, q) == e
         case PublishError(COMMITTED, _, _) => e in log
         case PublishError(UNKNOWN, _, _) => true
         case _ => !HasUuid(log, e.uuid)
  }

  lemma VerdictSettles(p: Publication, end: Store)
    requires IsJustified(p) && Later(p.after, end)
    ensures Settled(p, end.log)
  {
    if p.uuid.Some? {
      LaterKeepsPublishable(p.after, end, Freeze(p.draft, p.uuid.value));
      if Unpublished(p.after, p.uuid.value) {
        NeverCommits(p.after, end, p.uuid.value);
      }
      FoundAtMostOnce(end, Freeze(p.draft, p.uuid.value));
    }
  }

  lemma FoundAtMostOnce(st: Store, e: Entry)
    requires Consistent(st) && Publishable(st, e)
    ensures forall q: nat :: 1 <= q <= |st.log| && At(st.log, q).uuid == e.uuid ==> At(st.log, q) == e
    ensures forall q: nat, q': nat :: 1 <= q < q' <= |st.log| ==> !(At(st.log, q) == e && At(st.log, q') == e)
  {
    forall q: nat | 1 <= q <= |st.log| && At(st.log, q).uuid == e.uuid ensures At(st.log, q) == e {
      assert At(st.log, q) in st.log;
    }
  }

  /** However many events a publisher has published or tried to, and whatever still commits
      later: each is in the log at most once, and is there or not as its verdict said. */
  lemma EveryVerdictHolds(calls: seq<Publication>, end: Store, i: nat)
    requires History(calls, end) && i < |calls|
    ensures Settled(calls[i], end.log)
  {
    LaterEnd(calls, end, i);
    VerdictSettles(calls[i], end);
  }

  /** And no two of them have the same UUID. */
  lemma {:induction false} EveryUuidIsNew(calls: seq<Publication>, end: Store, i: nat, j: nat)
    requires History(calls, end) && i < j < |calls|
    ensures calls[i].uuid.Some? ==> calls[i].uuid != calls[j].uuid
    decreases |calls|
  {
    if j < |calls| - 1 {
      EveryUuidIsNew(calls[..|calls| - 1], calls[|calls| - 1].before, i, j);
    } else {
      LastUuidIsNew(calls, end, i);
    }
  }

  lemma LastUuidIsNew(calls: seq<Publication>, end: Store, i: nat)
    requires History(calls, end) && i < |calls| - 1
    ensures calls[i].uuid.Some? ==> calls[i].uuid != calls[|calls| - 1].uuid
  {
    var rest, last := calls[..|calls| - 1], calls[|calls| - 1];
    LaterEnd(rest, last.before, i);
    NewUuid(rest[i], last);
  }

  lemma NewUuid(p: Publication, q: Publication)
    requires IsJustified(p) && IsJustified(q) && Later(p.after, q.before)
    ensures p.uuid.Some? ==> p.uuid != q.uuid
  {
  }
}
