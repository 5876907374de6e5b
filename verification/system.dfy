/** The log, its members and successive Worker incarnations as one transition system.

    Every critical section of the Worker is one action. Publication is split where a
    crash or another member can come between: the event is frozen, its first attempt is
    sent, and from then on the server may commit it at any later moment, whether or not
    the publisher, or its whole incarnation, is still there to learn about it. */
module System {
  import opened Protocol
  import opened Progress
  import opened WorkerView
  import opened ProviderEvents

  /** One publisher's current event. */
  datatype Out = Idle | Ready(event: Entry) | Sent(event: Entry)

  /** What runs on behalf of a request: recovery, the control thread, or a provider
      task before and after it has started its call. `failing` is set once the task
      publishes an error output, after which it publishes nothing. */
  datatype Role =
    | Recovery
    | Control(code: int)
    | Starting
    | Calling(stage: Stage, writer: Option<nat>, failing: bool)

  datatype Publisher = Publisher(role: Role, out: Out)

  datatype Mode = Scanning | Recovering(todo: seq<nat>) | Serving

  /** One incarnation. It has read the first `cursor` entries; `target` is the snapshot
      it recovers to. */
  datatype Worker =
    | Down
    | Up(mode: Mode, target: nat, cursor: nat, view: View, publishers: map<nat, Publisher>, stopped: bool)

  /** `sent` are the events an attempt was made to publish, which the server may commit at
      any time. `calls` are the requests for which a provider call was started, in order,
      and `produced` the append bodies each call has yielded, over all incarnations. */
  datatype Sys = Sys(log: Log, sent: set<Entry>, nextUuid: nat, worker: Worker,
                     calls: seq<nat>, produced: map<nat, seq<Json>>)

  /** The principal of the deployment's one Worker; nothing below depends on which it is. */
  const WORKER_PRINCIPAL: nat := 1

  const INIT := Sys([], {}, 1, Down, [], map[])

  function Publishers(s: Sys): map<nat, Publisher> {
    if s.worker.Up? then s.worker.publishers else map[]
  }

  function Produced(s: Sys, r: nat): seq<Json> {
    if r in s.produced then s.produced[r] else []
  }

  predicate CanOutput(w: Worker, r: nat)
    requires w.Up?
  {
    !w.stopped && r in w.view.requests && w.view.requests[r].terminal.None?
  }

  function WithPublisher(s: Sys, r: nat, p: Publisher): Sys
    requires s.worker.Up?
  {
    s.(worker := s.worker.(publishers := s.worker.publishers[r := p]))
  }

  function WithoutPublisher(w: Worker, r: nat): Worker
    requires w.Up?
  {
    w.(publishers := w.publishers - {r})
  }

  // ---------------------------------------------------------------- the outputs of the Worker

  /** The event `_provider_task` builds from one provider event. */
  function OutputPayload(st: State, event: ProviderEvent, writer: Option<nat>): Payload
    requires event.Append? ==> writer.Some?
  {
    match event
    case Headers(status) => InferResult(st.streamId, st.requestSeq, status, None)
    case Result(status, body) => InferResult(st.streamId, st.requestSeq, status, Some(body))
    case Append(_, body) => InferAppend(st.streamId, st.requestSeq, writer.value, body)
    case Completed(status, body) => InferEnd(st.streamId, st.requestSeq, status, EndStatus.Completed, body)
    case Failed(status, body) => InferEnd(st.streamId, st.requestSeq, status, EndStatus.Failed, Some(body))
  }

  const ERROR_BODY: Json := "error"

  /** `_error_output`. */
  function ErrorPayload(st: State, code: int, recovery: bool, rejection: bool): Payload {
    if st.streaming && !rejection && !(recovery && st.duplicate)
    then InferEnd(st.streamId, st.requestSeq, code, Interrupted, Some(ERROR_BODY))
    else InferResult(st.streamId, st.requestSeq, code, Some(ERROR_BODY))
  }

  // ---------------------------------------------------------------- the other members and the server

  /** A member publishes a request or a cancel, or a message that is not the Worker's concern. */
  ghost predicate MemberPublishes(s: Sys, s': Sys, e: Entry) {
    && !IsOutput(e) && e.uuid == s.nextUuid
    && s' == s.(log := s.log + [e], nextUuid := s.nextUuid + 1)
  }

  /** The server commits an event some attempt of which it has received. */
  ghost predicate Commits(s: Sys, s': Sys, e: Entry) {
    && e in s.sent && (forall f :: f in s.log ==> f.uuid != e.uuid)
    && s' == s.(log := s.log + [e])
  }

  // ---------------------------------------------------------------- recovery

  ghost predicate Boots(s: Sys, s': Sys) {
    && s.worker.Down?
    && s' == s.(worker := Up(Scanning, |s.log|, 0, EMPTY_VIEW, map[], false))
  }

  ghost predicate Scans(s: Sys, s': Sys, cfg: Config) {
    && s.worker.Up? && s.worker.mode.Scanning? && s.worker.cursor < s.worker.target <= |s.log|
    && var next := Accept(s.worker.view, cfg, s.log[s.worker.cursor], s.worker.cursor + 1, true);
    && s' == s.(worker := if next.None? then Down
                          else s.worker.(view := next.value, cursor := s.worker.cursor + 1))
  }

  /** The unfinished requests, in order of their seq. */
  ghost predicate Planned(v: View, todo: seq<nat>) {
    && (forall i, j :: 0 <= i < j < |todo| ==> todo[i] < todo[j])
    && (forall r :: r in todo <==> r in v.requests && v.requests[r].terminal.None?)
  }

  ghost predicate Plans(s: Sys, s': Sys, todo: seq<nat>) {
    && s.worker.Up? && s.worker.mode.Scanning? && s.worker.cursor == s.worker.target
    && Planned(s.worker.view, todo)
    && s' == s.(worker := s.worker.(mode := Recovering(todo)))
  }

  ghost predicate RecoversNext(s: Sys, s': Sys) {
    && s.worker.Up? && s.worker.mode.Recovering? && s.worker.mode.todo != []
    && s.worker.publishers == map[]
    && s' == WithPublisher(s, s.worker.mode.todo[0], Publisher(Recovery, Idle))
  }

  ghost predicate Serves(s: Sys, s': Sys) {
    && s.worker.Up? && s.worker.mode == Recovering([]) && s.worker.publishers == map[]
    && s' == s.(worker := s.worker.(mode := Serving))
  }

  // ---------------------------------------------------------------- the live Worker

  ghost predicate Reads(s: Sys, s': Sys, cfg: Config) {
    && s.worker.Up? && s.worker.mode.Serving? && !s.worker.stopped && s.worker.cursor < |s.log|
    && var next := Accept(s.worker.view, cfg, s.log[s.worker.cursor], s.worker.cursor + 1, false);
    && s' == s.(worker := if next.None? then Down
                          else s.worker.(view := next.value, cursor := s.worker.cursor + 1))
  }

  /** `_schedule`: a request that was cancelled while it waited is skipped. */
  ghost predicate Schedules(s: Sys, s': Sys, cfg: Config) {
    && s.worker.Up? && s.worker.mode.Serving? && !s.worker.stopped
    && s.worker.view.pending != [] && s.worker.view.running < cfg.maxConcurrency
    && var v, r := s.worker.view, s.worker.view.pending[0];
    && var taken := s.(worker := s.worker.(view := TakePending(v)));
    && s' == if r in v.requests then WithPublisher(taken, r, Publisher(Starting, Idle)) else taken
  }

  /** `_control_outputs`: one control event at a time. */
  ghost predicate PicksControl(s: Sys, s': Sys) {
    && s.worker.Up? && s.worker.mode.Serving? && !s.worker.stopped && s.worker.view.controls != []
    && (forall q :: q in s.worker.publishers ==> !s.worker.publishers[q].role.Control?)
    && var v, r, code := s.worker.view, s.worker.view.controls[0].0, s.worker.view.controls[0].1;
    && var taken := s.(worker := s.worker.(view := TakeControl(v)));
    && s' == if r in v.requests then WithPublisher(taken, r, Publisher(Control(code), Idle)) else taken
  }

  /** A provider task creates its operation. */
  ghost predicate StartsCall(s: Sys, s': Sys, r: nat) {
    && s.worker.Up? && r in s.worker.publishers && s.worker.publishers[r] == Publisher(Starting, Idle)
    && CanOutput(s.worker, r)
    && var begun := s.(worker := s.worker.(view := BeginCall(s.worker.view, r)), calls := s.calls + [r]);
    && s' == WithPublisher(begun, r, Publisher(Calling(Fresh, None, false), Idle))
  }

  // ---------------------------------------------------------------- publication

  function Frozen(s: Sys, r: nat, payload: Payload): Entry
    requires s.worker.Up? && r in s.worker.view.requests
  {
    Entry(s.nextUuid, s.worker.view.requests[r].channel, WORKER_PRINCIPAL, payload)
  }

  function Freeze(s: Sys, r: nat, role: Role, payload: Payload): Sys
    requires s.worker.Up? && r in s.worker.view.requests
  {
    WithPublisher(s, r, Publisher(role, Ready(Frozen(s, r, payload)))).(nextUuid := s.nextUuid + 1)
  }

  /** The provider call yields an event, which the task freezes for publication. */
  ghost predicate Yields(s: Sys, s': Sys, r: nat, event: ProviderEvent) {
    && s.worker.Up? && r in s.worker.publishers && s.worker.publishers[r].out.Idle?
    && CanOutput(s.worker, r)
    && var role := s.worker.publishers[r].role;
    && role.Calling? && !role.failing
    && Allowed(s.worker.view.requests[r].streaming, role.stage, event)
    && (event.Append? ==> role.writer.Some?)
    && var frozen := Freeze(s, r, role.(stage := After(event)),
                            OutputPayload(s.worker.view.requests[r], event, role.writer));
    && s' == if event.Append? then frozen.(produced := s.produced[r := Produced(s, r) + [event.body]])
             else frozen
  }

  /** What a task may report: the codes of ProviderError, and 60007 for any other exception. */
  predicate IsTaskError(code: int) {
    code in {60000, 60001, 60002, 60003, 60007, 60008}
  }

  /** The provider call fails, or yields an event whose encoding is too large (`dropped`
      holds the body when that event was an append); the task freezes an error output. */
  ghost predicate Fails(s: Sys, s': Sys, r: nat, code: int, dropped: seq<Json>) {
    && s.worker.Up? && r in s.worker.publishers && s.worker.publishers[r].out.Idle?
    && CanOutput(s.worker, r)
    && var role := s.worker.publishers[r].role;
    && role.Calling? && !role.failing && |dropped| <= 1 && IsTaskError(code)
    && (dropped != [] ==> role.stage.Open?)
    && s' == Freeze(s, r, role.(failing := true), ErrorPayload(s.worker.view.requests[r], code, false, false))
             .(produced := s.produced[r := Produced(s, r) + dropped])
  }

  /** Recovery and the control thread freeze their one output. */
  ghost predicate Rejects(s: Sys, s': Sys, r: nat) {
    && s.worker.Up? && r in s.worker.publishers && s.worker.publishers[r].out.Idle?
    && CanOutput(s.worker, r)
    && var role, st := s.worker.publishers[r].role, s.worker.view.requests[r];
    && (role.Recovery? || role.Control?)
    && s' == Freeze(s, r, role,
                    if role.Recovery? then ErrorPayload(st, MODEL_PROXY_INTERRUPTED, true, false)
                    else ErrorPayload(st, role.code, false, true))
  }

  /** The first attempt of a frozen event. Only a stop prevents it any more; a terminal
      that was read after the last check does not. */
  ghost predicate Sends(s: Sys, s': Sys, r: nat) {
    && s.worker.Up? && r in s.worker.publishers && s.worker.publishers[r].out.Ready? && !s.worker.stopped
    && var p := s.worker.publishers[r];
    && s' == WithPublisher(s, r, p.(out := Sent(p.out.event))).(sent := s.sent + {p.out.event})
  }

  /** The `finally` blocks: the publisher gives up its request. */
  function Finish(w: Worker, r: nat): Worker
    requires w.Up? && r in w.publishers
  {
    var v := w.view;
    match w.publishers[r].role
    case Recovery =>
      WithoutPublisher(w.(view := SetPhase(v, r, Done)), r)
    case Control(_) =>
      WithoutPublisher(w.(view := FinishControl(v, r)), r)
    case _ =>
      WithoutPublisher(w.(view := Release(v, r)), r)
  }

  /** Publication succeeds with the seq under which the event stands in the log. */
  ghost predicate Returns(s: Sys, s': Sys, r: nat, q: nat) {
    && s.worker.Up? && r in s.worker.publishers && s.worker.publishers[r].out.Sent?
    && 1 <= q <= |s.log|
    && At(s.log, q).uuid == s.worker.publishers[r].out.event.uuid
    && var w, role := s.worker, s.worker.publishers[r].role;
    && match role
       case Recovery =>
         && w.mode.Recovering? && w.mode.todo != [] && w.mode.todo[0] == r
         && s' == s.(worker := Finish(w, r).(mode := Recovering(w.mode.todo[1..])))
       case Control(_) => s' == s.(worker := Finish(w, r))
       case Starting => false
       case Calling(stage, _, failing) =>
         s' == if failing then s.(worker := Finish(w, r))
               else WithPublisher(s, r, Publisher(Calling(stage, Some(q), false), Idle))
  }

  /** A publisher ends without a result, at any moment: its call is exhausted or aborted,
      its request is terminal, the Worker stops, or publication failed. Recovery cannot
      continue after that. */
  ghost predicate Quits(s: Sys, s': Sys, r: nat) {
    && s.worker.Up? && r in s.worker.publishers
    && s' == if s.worker.publishers[r].role.Recovery? then s.(worker := Down)
             else s.(worker := Finish(s.worker, r))
  }

  ghost predicate Stops(s: Sys, s': Sys) {
    s.worker.Up? && s' == s.(worker := s.worker.(stopped := true))
  }

  ghost predicate Crashes(s: Sys, s': Sys) {
    s.worker.Up? && s' == s.(worker := Down)
  }

  // ---------------------------------------------------------------- runs

  datatype Action =
    | MemberPublish(e: Entry) | Commit(e: Entry)
    | Boot | Scan | Plan(todo: seq<nat>) | RecoverNext | Serve
    | Read | Schedule | PickControl | StartCall(r: nat)
    | Yield(r: nat, event: ProviderEvent) | Fail(r: nat, code: int, dropped: seq<Json>) | Reject(r: nat)
    | Send(r: nat) | Return(r: nat, q: nat) | Quit(r: nat) | Stop | Crash

  ghost predicate Next(s: Sys, a: Action, s': Sys, cfg: Config) {
    match a
    case MemberPublish(e) => MemberPublishes(s, s', e)
    case Commit(e) => Commits(s, s', e)
    case Boot => Boots(s, s')
    case Scan => Scans(s, s', cfg)
    case Plan(todo) => Plans(s, s', todo)
    case RecoverNext => RecoversNext(s, s')
    case Serve => Serves(s, s')
    case Read => Reads(s, s', cfg)
    case Schedule => Schedules(s, s', cfg)
    case PickControl => PicksControl(s, s')
    case StartCall(r) => StartsCall(s, s', r)
    case Yield(r, event) => Yields(s, s', r, event)
    case Fail(r, code, dropped) => Fails(s, s', r, code, dropped)
    case Reject(r) => Rejects(s, s', r)
    case Send(r) => Sends(s, s', r)
    case Return(r, q) => Returns(s, s', r, q)
    case Quit(r) => Quits(s, s', r)
    case Stop => Stops(s, s')
    case Crash => Crashes(s, s')
  }

  /** A run from the empty log: states and the actions between them. */
  ghost predicate Run(states: seq<Sys>, actions: seq<Action>, cfg: Config) {
    && |states| == |actions| + 1 && states[0] == INIT
    && forall i: nat :: i < |actions| ==> StepAt(states, actions, cfg, i)
  }

  ghost predicate StepAt(states: seq<Sys>, actions: seq<Action>, cfg: Config, i: nat)
    requires |states| == |actions| + 1 && i < |actions|
  {
    Next(states[i], actions[i], states[i + 1], cfg)
  }
}
