/** OpenEvent as a publisher sees it, and the bounded retries of ordinary RPCs. */
module Rpc {
  import opened Protocol

  datatype Status =
    | Cancelled | DeadlineExceeded | Unknown | Unavailable | Internal | NoStatus
    | AlreadyExists
    | Unauthenticated | PermissionDenied | NotFound | InvalidArgument | ResourceExhausted
    | OtherStatus

  predicate IsRetryable(status: Status) {
    status in {Cancelled, DeadlineExceeded, Unknown, Unavailable, Internal, NoStatus}
  }

  /** The statuses that prove that an attempt to publish did not commit. */
  predicate ProvesUncommitted(status: Status) {
    status in {Unauthenticated, PermissionDenied, NotFound, InvalidArgument, ResourceExhausted}
  }

  datatype Reply = Ok(value: nat) | Refused(status: Status)

  /** A reply that is not a positive integer counts as a failure without a status. */
  function Checked(reply: Reply): Reply {
    if reply.Ok? && reply.value == 0 then Refused(NoStatus) else reply
  }

  // ---------------------------------------------------------------- the server

  /** `mine` are the UUIDs this publisher obtained; `inFlight` the events it tried to publish
      where the attempt may still commit. */
  datatype Store = Store(log: Log, mine: set<nat>, inFlight: set<Entry>)

  predicate HasUuid(log: Log, uuid: nat) {
    exists i :: 0 <= i < |log| && log[i].uuid == uuid
  }

  predicate Consistent(st: Store) {
    && (forall i, j :: 0 <= i < j < |st.log| ==> st.log[i].uuid != st.log[j].uuid)
    && (forall e :: e in st.inFlight ==> e.uuid in st.mine)
    && (forall e, f :: e in st.inFlight && f in st.inFlight && e.uuid == f.uuid ==> e == f)
    && (forall e, f :: e in st.log && f in st.inFlight && e.uuid == f.uuid ==> e == f)
  }

  /** What may happen to the store while this publisher does other things: anybody may
      publish, and attempts in flight may commit, but this publisher makes no further attempt
      under a UUID it already had. */
  predicate Later(a: Store, b: Store) {
    && Consistent(b)
    && a.log <= b.log && a.mine <= b.mine && a.inFlight <= b.inFlight
    && (forall e :: e in b.inFlight && e !in a.inFlight ==> e.uuid !in a.mine)
    && (forall e :: e in b.log && e !in a.log && e.uuid in a.mine ==> e in a.inFlight)
  }

  lemma LaterIsConsistent(a: Store, b: Store)
    requires Later(a, b)
    ensures Consistent(b)
  {
  }

  lemma LaterReflexive(a: Store)
    requires Consistent(a)
    ensures Later(a, a)
  {
  }

  lemma LaterTransitive(a: Store, b: Store, c: Store)
    requires Later(a, b) && Later(b, c)
    ensures Later(a, c)
  {
    forall e | e in c.log && e !in a.log && e.uuid in a.mine ensures e in a.inFlight {
      if e !in b.log {
        assert e in b.inFlight;
      }
    }
  }

  /** An event no attempt for which can still commit is never in the log. */
  lemma NeverCommits(a: Store, b: Store, uuid: nat)
    requires Later(a, b) && uuid in a.mine && !HasUuid(a.log, uuid)
    requires forall e :: e in a.inFlight ==> e.uuid != uuid
    ensures !HasUuid(b.log, uuid)
  {
    forall i | 0 <= i < |b.log| ensures b.log[i].uuid != uuid {
      assert b.log[i] in b.log;
      if b.log[i] in a.log {
        var j :| 0 <= j < |a.log| && a.log[j] == b.log[i];
        assert a.log[j].uuid != uuid;
      }
    }
  }

  /** The client may try to publish `e`: no other event carries its UUID. */
  predicate Publishable(st: Store, e: Entry) {
    && e.uuid in st.mine
    && (forall f :: f in st.inFlight && f.uuid == e.uuid ==> f == e)
    && (forall f :: f in st.log && f.uuid == e.uuid ==> f == e)
  }

  function WithAttempt(st: Store, e: Entry): Store {
    st.(inFlight := st.inFlight + {e})
  }

  function WithCommit(st: Store, e: Entry): Store {
    st.(log := st.log + [e], inFlight := st.inFlight + {e})
  }

  lemma AttemptIsConsistent(st: Store, e: Entry)
    requires Consistent(st) && Publishable(st, e)
    ensures Consistent(WithAttempt(st, e)) && Publishable(WithAttempt(st, e), e)
  {
  }

  lemma CommitIsConsistent(st: Store, e: Entry)
    requires Consistent(st) && Publishable(st, e) && !HasUuid(st.log, e.uuid)
    ensures Consistent(WithCommit(st, e)) && Publishable(WithCommit(st, e), e)
  {
    var next := WithCommit(st, e);
    forall i, j | 0 <= i < j < |next.log| ensures next.log[i].uuid != next.log[j].uuid {
      assert next.log[i] == st.log[i];
    }
  }

  /** Whatever is committed under a UUID of this client was in flight. */
  lemma LaterKeepsPublishable(a: Store, b: Store, e: Entry)
    requires Later(a, b) && Publishable(a, e)
    ensures Publishable(b, e)
  {
  }

  /** From `a`, the client made an attempt to publish `e`: apart from `e` itself, what
      happened since could have happened anyway. */
  predicate Tried(a: Store, b: Store, e: Entry) {
    && Consistent(b) && Publishable(b, e) && b.mine == a.mine
    && a.inFlight <= b.inFlight <= a.inFlight + {e}
    && a.log <= b.log
    && (forall f :: f in b.log && f !in a.log && f.uuid in a.mine ==> f in b.inFlight)
  }

  lemma TriedByWaiting(a: Store, b: Store, e: Entry)
    requires Later(a, b) && Publishable(b, e) && b.mine == a.mine && b.inFlight == a.inFlight
    ensures Tried(a, b, e)
  {
  }

  lemma TriedByAttempt(a: Store, b: Store, e: Entry)
    requires Tried(a, b, e)
    ensures Tried(a, WithAttempt(b, e), e)
  {
    AttemptIsConsistent(b, e);
  }

  lemma TriedByCommit(a: Store, b: Store, e: Entry)
    requires Tried(a, b, e) && !HasUuid(b.log, e.uuid)
    ensures Tried(a, WithCommit(b, e), e)
  {
    CommitIsConsistent(b, e);
  }

  /** The server decides about an attempt that has reached it. */
  function Answer(st: Store, e: Entry, commits: bool, answers: bool, status: Status): (Store, Reply) {
    var lost := if answers then Ok(0) else Refused(if IsUncertain(status) then status else NoStatus);
    if HasUuid(st.log, e.uuid) then
      if IsUncertain(status) then (WithAttempt(st, e), lost)
      else (st, Refused(if answers then AlreadyExists else status))
    else if commits then (WithCommit(st, e), if answers then Ok(|st.log| + 1) else lost)
    else if ProvesUncommitted(status) then (st, Refused(status))
    else (WithAttempt(st, e), lost)
  }

  lemma AnswerIsTried(a: Store, b: Store, e: Entry, commits: bool, answers: bool, status: Status)
    requires Tried(a, b, e)
    ensures Tried(a, Answer(b, e, commits, answers, status).0, e)
  {
    TriedByAttempt(a, b, e);
    if !HasUuid(b.log, e.uuid) {
      TriedByCommit(a, b, e);
    }
  }

  lemma AnswerIsSound(b: Store, e: Entry, commits: bool, answers: bool, status: Status)
    requires Publishable(b, e)
    ensures var (next, reply) := Answer(b, e, commits, answers, status);
            && (Checked(reply).Ok? ==> reply.value <= |next.log| && At(next.log, reply.value) == e)
            && (reply == Refused(AlreadyExists) ==> e in next.log)
            && (reply.Refused? && !IsUncertain(reply.status) ==> next == b)
            && (Checked(reply).Refused? && IsUncertain(Checked(reply).status) ==> e in next.inFlight)
  {
    if HasUuid(b.log, e.uuid) {
      var i :| 0 <= i < |b.log| && b.log[i].uuid == e.uuid;
      assert b.log[i] in b.log;
    }
  }

  datatype Operation = GetUuid | GetSeqByUuid(uuid: nat)

  /** The server and the event that stops the client. Everything it does beyond what its
      contracts say is left open. */
  class Server {
    var st: Store
    var stopped: bool
    /** The client has looked at its stop event, and at its hook, since its last attempt, and
        neither stopped it. */
    ghost var cleared: bool
    /** Every reply the client has had, as it takes it. */
    ghost var heard: seq<Reply>

    ghost predicate Valid()
      reads this
    {
      Consistent(st)
    }

    /** Time passes. */
    method Pass()
      requires Valid()
      modifies this
      ensures Valid() && Later(old(st), st) && st.mine == old(st.mine) && st.inFlight == old(st.inFlight)
      ensures cleared == old(cleared) && heard == old(heard) && (old(stopped) ==> stopped)
    {
      LaterReflexive(st);
      var next: Store :| Later(st, next) && next.mine == st.mine && next.inFlight == st.inFlight;
      LaterIsConsistent(st, next);
      var stops: bool := *;
      st := next;
      stopped := stopped || stops;
    }

    /** One attempt of an ordinary RPC. */
    method Perform(op: Operation) returns (reply: Reply)
      requires Valid() && cleared
      modifies this
      ensures Valid() && Later(old(st), st) && st.inFlight == old(st.inFlight)
      ensures !cleared && heard == old(heard) + [Checked(reply)] && (old(stopped) ==> stopped)
      ensures Checked(reply).Ok? ==>
                match op
                case GetUuid => reply.value in st.mine && reply.value !in old(st).mine && !HasUuid(st.log, reply.value)
                case GetSeqByUuid(uuid) => reply.value <= |st.log| && At(st.log, reply.value).uuid == uuid
      ensures !(op.GetUuid? && reply.Ok?) ==> st.mine == old(st).mine
    {
      Pass();
      reply := Answered(op);
      cleared, heard := false, heard + [Checked(reply)];
    }

    /** What the server answers, if it answers. */
    method Answered(op: Operation) returns (reply: Reply)
      requires Valid()
      modifies this`st
      ensures Valid() && Later(old(st), st) && st.inFlight == old(st.inFlight)
      ensures Checked(reply).Ok? ==>
                match op
                case GetUuid => reply.value in st.mine && reply.value !in old(st).mine && !HasUuid(st.log, reply.value)
                case GetSeqByUuid(uuid) => reply.value <= |st.log| && At(st.log, reply.value).uuid == uuid
      ensures !(op.GetUuid? && reply.Ok?) ==> st.mine == old(st).mine
    {
      LaterReflexive(st);
      var answers: bool := *;
      var status: Status := *;
      if !answers {
        return Refused(status);
      }
      match op
      case GetUuid =>
        var value: nat := *;
        if value == 0 || value in st.mine || HasUuid(st.log, value) {
          return Refused(status);
        }
        st := st.(mine := st.mine + {value});
        return Ok(value);
      case GetSeqByUuid(uuid) =>
        if HasUuid(st.log, uuid) {
          var i :| 0 <= i < |st.log| && st.log[i].uuid == uuid;
          return Ok(i + 1);
        }
        return Refused(NotFound);
    }

    /** One attempt to publish `e`. It may commit or not, and whatever the reply says or
        fails to say, an attempt that does not prove the contrary may commit later. */
    method PublishAutoSeq(e: Entry) returns (reply: Reply)
      requires Valid() && Publishable(st, e) && cleared
      modifies this
      ensures Valid() && Tried(old(st), st, e)
      ensures !cleared && heard == old(heard) + [Checked(reply)] && (old(stopped) ==> stopped)
      ensures Checked(reply).Ok? ==> reply.value <= |st.log| && At(st.log, reply.value) == e
      ensures reply == Refused(AlreadyExists) ==> e in st.log
      ensures reply.Refused? && !IsUncertain(reply.status) ==> Later(old(st), st) && st.inFlight == old(st.inFlight)
      ensures Checked(reply).Refused? && IsUncertain(Checked(reply).status) ==> e in st.inFlight
    {
      var commits, answers, status := Attempted(e);
      ghost var before, arrived := old(st), st;
      TriedByWaiting(before, arrived, e);
      AnswerIsTried(before, arrived, e, commits, answers, status);
      AnswerIsSound(arrived, e, commits, answers, status);
      var (next, answer) := Answer(st, e, commits, answers, status);
      reply := answer;
      st, cleared, heard := next, false, heard + [Checked(reply)];
    }

    /** The attempt reaches the server at some later moment, and its fate is open. */
    method Attempted(e: Entry) returns (commits: bool, answers: bool, status: Status)
      requires Valid() && Publishable(st, e)
      modifies this
      ensures Valid() && Publishable(st, e) && Later(old(st), st)
      ensures st.mine == old(st.mine) && st.inFlight == old(st.inFlight)
      ensures heard == old(heard) && (old(stopped) ==> stopped)
    {
      Pass();
      LaterKeepsPublishable(old(st), st, e);
      commits := *;
      answers := *;
      status := *;
    }
  }

  /** Neither the status of a commit nor proof against one. */
  predicate IsUncertain(status: Status) {
    !ProvesUncommitted(status) && status != AlreadyExists
  }

  /** What is retried is what says nothing about the attempt: an answer that settles it is
      never retried, and of the others only an unnamed status is not. */
  lemma RetriesAreUncertain(status: Status)
    ensures IsUncertain(status) <==> IsRetryable(status) || status == OtherStatus
    ensures IsRetryable(status) ==> status != OtherStatus && status != AlreadyExists
  {
  }

  // ---------------------------------------------------------------- call_rpc

  /** How `call_rpc` ends: with a value, with RPCStopped, or with the operation's error. */
  datatype Outcome = Value(value: nat) | Stopped | Error(status: Status)

  /** The stop event is set, or the hook before the attempt refuses it. */
  method IsStopped(server: Server, stoppable: bool, hooked: bool) returns (stop: bool)
    requires server.Valid()
    modifies server
    ensures server.Valid() && Later(old(server.st), server.st)
    ensures server.st.mine == old(server.st).mine && server.st.inFlight == old(server.st).inFlight
    ensures old(server.stopped) ==> server.stopped
    ensures stop ==> server.stopped && (stoppable || hooked)
    ensures old(server.stopped) && (stoppable || hooked) ==> stop
    ensures (!stop ==> server.cleared) && server.heard == old(server.heard)
  {
    stop := stoppable && server.stopped;
    server.Pass();
    if hooked && server.stopped {
      stop := true;
    }
    server.cleared := !stop;
  }

  /** What `call_rpc` is told and does: `replies` are the answers of its attempts. */
  ghost predicate Attempts(replies: seq<Reply>, maxRetries: nat, outcome: Outcome) {
    && |replies| <= maxRetries + 1
    && (forall i :: 0 <= i < |replies| - 1 ==> replies[i].Refused? && IsRetryable(replies[i].status))
    && match outcome
       case Value(value) => replies != [] && replies[|replies| - 1] == Ok(value)
       case Stopped => replies == []
       case Error(status) => replies != [] && replies[|replies| - 1] == Refused(status)
  }

  /** What a value of the operation is worth. */
  ghost predicate Found(start: Store, now: Store, op: Operation, value: nat) {
    match op
    case GetUuid => value in now.mine && value !in start.mine && !HasUuid(now.log, value)
    case GetSeqByUuid(uuid) => 1 <= value <= |now.log| && At(now.log, value).uuid == uuid
  }

  /** Between `heard` and `now` the client has had `replies`, and stopped trying with this
      error for one of the three reasons there are. */
  ghost predicate GaveUp(heard: seq<Reply>, now: seq<Reply>, maxRetries: nat, status: Status, stopped: bool) {
    exists replies :: now == heard + replies && Exhausted(replies, maxRetries, status, stopped)
  }

  ghost predicate Exhausted(replies: seq<Reply>, maxRetries: nat, status: Status, stopped: bool) {
    && Attempts(replies, maxRetries, Error(status))
    && (|replies| == maxRetries + 1 || !IsRetryable(status) || stopped)
  }

  /** One attempt of `call_rpc`, unless the client is stopped before it. */
  method Turn(server: Server, op: Operation, stoppable: bool, hooked: bool, ghost start: Store)
    returns (stop: bool, reply: Reply)
    requires server.Valid() && Later(start, server.st) && server.st.inFlight == start.inFlight
    modifies server
    ensures server.Valid() && Later(start, server.st) && server.st.inFlight == start.inFlight
    ensures old(server.stopped) ==> server.stopped
    ensures old(server.stopped) && (stoppable || hooked) ==> stop
    ensures stop ==> server.stopped && (stoppable || hooked) && server.heard == old(server.heard)
    ensures !stop ==> server.heard == old(server.heard) + [reply]
    ensures !stop && reply.Ok? ==> Found(start, server.st, op, reply.value)
  {
    ghost var before := server.st;
    stop := IsStopped(server, stoppable, hooked);
    LaterTransitive(start, before, server.st);
    reply := Refused(NoStatus);
    if !stop {
      before := server.st;
      reply := server.Perform(op);
      reply := Checked(reply);
      LaterTransitive(start, before, server.st);
    }
  }

  /** The wait between two attempts of `call_rpc`. */
  method Pause(server: Server, stoppable: bool, ghost start: Store) returns (stop: bool)
    requires server.Valid() && Later(start, server.st) && server.st.inFlight == start.inFlight
    modifies server
    ensures server.Valid() && Later(start, server.st) && server.st.inFlight == start.inFlight
    ensures (old(server.stopped) ==> server.stopped) && server.heard == old(server.heard)
    ensures stop == (stoppable && server.stopped)
  {
    ghost var before := server.st;
    server.Pass();
    LaterTransitive(start, before, server.st);
    stop := stoppable && server.stopped;
  }

  /** `call_rpc`: at most one attempt more than the retries, only retryable failures are
      retried, the first success is returned, and RPCStopped means nothing was attempted. */
  method CallRpc(server: Server, op: Operation, maxRetries: nat, stoppable: bool, hooked: bool)
    returns (outcome: Outcome, replies: seq<Reply>)
    requires server.Valid()
    modifies server
    ensures server.Valid() && Later(old(server.st), server.st)
    ensures server.st.inFlight == old(server.st).inFlight
    ensures old(server.stopped) ==> server.stopped
    ensures server.heard == old(server.heard) + replies && Attempts(replies, maxRetries, outcome)
    ensures outcome.Stopped? ==> server.stopped && (stoppable || hooked)
    ensures old(server.stopped) && (stoppable || hooked) ==> outcome.Stopped?
    ensures outcome.Error? ==> Exhausted(replies, maxRetries, outcome.status, server.stopped)
    ensures outcome.Value? ==> Found(old(server.st), server.st, op, outcome.value)
  {
    ghost var start := server.st;
    LaterReflexive(start);
    replies := [];
    while |replies| <= maxRetries
      invariant server.Valid() && Later(start, server.st) && server.st.inFlight == start.inFlight
      invariant old(server.stopped) ==> server.stopped
      invariant old(server.stopped) && (stoppable || hooked) ==> replies == []
      invariant server.heard == old(server.heard) + replies && |replies| <= maxRetries
      invariant forall i :: 0 <= i < |replies| ==> replies[i].Refused? && IsRetryable(replies[i].status)
      decreases maxRetries + 1 - |replies|
    {
      var stop, reply := Turn(server, op, stoppable, hooked, start);
      if stop {
        if replies != [] {
          return Error(replies[|replies| - 1].status), replies;
        }
        return Stopped, replies;
      }
      replies := replies + [reply];
      if reply.Ok? {
        return Value(reply.value), replies;
      }
      if |replies| == maxRetries + 1 || !IsRetryable(reply.status) {
        return Error(reply.status), replies;
      }
      stop := Pause(server, stoppable, start);
      if stop {
        return Error(reply.status), replies;
      }
    }
    assert false;
  }
}
