/** The subscription in its own form: objects whose fields change in place under one lock.
    Every method is one critical section, proved against a function of `SubscriptionView`. */
module Subscribing {
  import opened Protocol
  import opened Delivery
  import opened Consumption
  import Publishing
  import View = SubscriptionView

  datatype Registration = Done | CallFailed | SubscriptionFailed | UuidTaken

  /** Whether a call may be registered under a UUID. */
  function RegistrationOf(s: View.Sub, place: nat, uuid: nat): Registration
    requires place < |s.calls|
  {
    if s.calls[place].error.Some? then CallFailed
    else if s.error.Some? then SubscriptionFailed
    else if uuid in s.byUuid then UuidTaken
    else Done
  }

  datatype Screening = Refuse | Skip | Parse

  datatype CloseTurn = WaitForCloser | Report(found: Option<Publishing.Verdict>) | First(cancels: bool)

  class Call {
    const streamId: string
    const streaming: bool
    var frozen: Option<Entry>
    var requestSeq: Option<nat>
    var receive: Option<Receive>
    var queue: seq<Item>
    var error: Option<View.SubError>
    var localClosed: bool
    var result: Option<Message>
    var completed: Option<Message>
    var closeStarted: bool
    var closeDone: bool
    var closeError: Option<Publishing.Verdict>
    /** How many calls were begun before; a call is known by nothing else. */
    ghost const place: nat

    function Value(): View.CallState
      reads this
    {
      View.CallState(streamId, streaming, frozen, requestSeq, receive, queue, error, localClosed,
                     result, completed, closeStarted, closeDone, closeError)
    }

    constructor (streamId: string, streaming: bool, ghost place: nat)
      ensures Value() == View.NewCall(streamId, streaming) && this.place == place
    {
      this.streamId, this.streaming, this.place := streamId, streaming, place;
      frozen, requestSeq, receive, queue := None, None, None, [];
      error, localClosed, result, completed := None, false, None, None;
      closeStarted, closeDone, closeError := false, false, None;
    }
  }

  class Subscription {
    var error: Option<View.SubError>
    var initialFromSeq: Option<nat>
    var lastSeenSeq: nat
    var calls: seq<Call>
    var callsByUuid: map<nat, Call>
    var receivesBySeq: map<nat, Call>
    var hasReader: bool

    ghost predicate Owns(call: Call)
      reads this
    {
      call.place < |calls| && calls[call.place] == call
    }

    ghost predicate Valid()
      reads this
    {
      && (forall i :: 0 <= i < |calls| ==> calls[i].place == i)
      && (forall u :: u in callsByUuid ==> Owns(callsByUuid[u]))
      && (forall r :: r in receivesBySeq ==> Owns(receivesBySeq[r]))
    }

    ghost function CallValues(): seq<View.CallState>
      reads this, calls
    {
      seq(|calls|, i requires 0 <= i < |calls| reads this, calls => calls[i].Value())
    }

    ghost function Places(index: map<nat, Call>): map<nat, nat> {
      map k | k in index :: index[k].place
    }

    lemma PlacesRemoved(index: map<nat, Call>, k: nat)
      ensures Places(index - {k}) == Places(index) - {k}
    {
    }

    lemma PlacesAdded(index: map<nat, Call>, k: nat, call: Call)
      ensures Places(index[k := call]) == Places(index)[k := call.place]
    {
    }

    ghost function AsView(): View.Sub
      reads this, calls
    {
      View.Sub(error, initialFromSeq, lastSeenSeq, CallValues(), Places(callsByUuid), Places(receivesBySeq))
    }

    /** An update of one call shows in the view at its place only. */
    twostate lemma OneCallChanged(call: Call)
      requires old(Valid()) && Valid() && calls == old(calls) && Owns(call)
      requires forall c :: c in calls && c != call ==> unchanged(c)
      ensures CallValues() == old(CallValues())[call.place := call.Value()]
    {
      forall i | 0 <= i < |calls| && i != call.place ensures calls[i].Value() == old(calls[i].Value()) {
        assert calls[i] in calls && calls[i].place == i;
      }
    }

    lemma InView(call: Call)
      requires Valid() && Owns(call)
      ensures call.place < |AsView().calls| && AsView().calls[call.place] == call.Value()
    {
    }

    constructor ()
      ensures Valid() && AsView() == View.NEW_SUB
    {
      error, initialFromSeq, lastSeenSeq := None, None, 0;
      calls, callsByUuid, receivesBySeq := [], map[], map[];
      hasReader := false;
    }

    // -------------------------------------------------------------- the caller's thread

    /** The last section of `prepare`: the reader has been started, and replay will begin
        after `maxSeq`. */
    method Anchor(maxSeq: nat)
      requires Valid()
      modifies this
      ensures Valid() && AsView() == old(AsView()).(initialFromSeq := Some(maxSeq), lastSeenSeq := maxSeq)
      ensures hasReader
    {
      hasReader := true;
      initialFromSeq, lastSeenSeq := Some(maxSeq), maxSeq;
      assert CallValues() == old(CallValues());
    }

    /** `begin`; no call when the subscription has failed. */
    method Begin(streamId: string, streaming: bool) returns (call: Call?)
      requires Valid()
      modifies this`calls
      ensures Valid() && (call == null <==> old(error).Some?)
      ensures call == null ==> AsView() == old(AsView())
      ensures call != null ==> fresh(call) && Owns(call) && calls == old(calls) + [call]
                               && AsView() == View.Begin(old(AsView()), streamId, streaming)
    {
      if error.Some? {
        return null;
      }
      call := new Call(streamId, streaming, |calls|);
      calls := calls + [call];
    }

    /** `begin_publication_rpc`: whether one more attempt may start. */
    method BeginPublicationRpc() returns (allowed: bool)
      ensures allowed <==> error.None?
    {
      allowed := error.None?;
    }

    /** `register`. */
    method Register(call: Call, frozen: Entry) returns (outcome: Registration)
      requires Valid() && Owns(call)
      modifies this`callsByUuid, call`frozen
      ensures Valid()
      ensures call.place < |old(AsView()).calls|
      ensures outcome == RegistrationOf(old(AsView()), call.place, frozen.uuid)
      ensures AsView() == if outcome.Done? then View.Register(old(AsView()), call.place, frozen) else old(AsView())
    {
      InView(call);
      if call.error.Some? {
        return CallFailed;
      }
      if error.Some? {
        return SubscriptionFailed;
      }
      if frozen.uuid in callsByUuid {
        return UuidTaken;
      }
      call.frozen := Some(frozen);
      PlacesAdded(callsByUuid, frozen.uuid, call);
      callsByUuid := callsByUuid[frozen.uuid := call];
      OneCallChanged(call);
      return Done;
    }

    /** `published`; the result tells the caller whether it has to end the reader. */
    method Published(call: Call, q: nat) returns (failed: bool)
      requires Valid() && Owns(call)
      modifies this, calls
      ensures Valid() && calls == old(calls)
      ensures AsView() == View.Published(old(AsView()), call.place, q)
      ensures failed <==> old(error).None? && error.Some?
    {
      failed := false;
      call.requestSeq := Some(q);
      OneCallChanged(call);
      if call.receive.Some? && call.receive.value.requestSeq != q {
        InvalidateLocked(call, View.ProtocolBroken);
        failed := FailLocked(View.ProtocolBroken);
      }
    }

    method PublicationFailed(call: Call)
      requires Valid() && Owns(call)
      modifies this`callsByUuid, this`receivesBySeq, call
      ensures Valid()
      ensures AsView() == View.PublicationFailed(old(AsView()), call.place)
    {
      DetachLocked(call);
      label detached:
      call.localClosed := true;
      call.queue := [];
      call.result, call.completed, call.receive, call.error := None, None, None, None;
      OneCallChanged@detached(call);
    }

    // -------------------------------------------------------------- leaving the indexes

    method DetachLocked(call: Call)
      requires Valid() && Owns(call)
      modifies this`callsByUuid, this`receivesBySeq, call`frozen
      ensures Valid() && AsView() == View.Detach(old(AsView()), call.place)
    {
      InView(call);
      if call.frozen.Some? {
        PlacesRemoved(callsByUuid, call.frozen.value.uuid);
        callsByUuid := callsByUuid - {call.frozen.value.uuid};
        call.frozen := None;
      }
      if call.receive.Some? {
        PlacesRemoved(receivesBySeq, call.receive.value.requestSeq);
        receivesBySeq := receivesBySeq - {call.receive.value.requestSeq};
      }
      OneCallChanged(call);
    }

    method StopCallLocked(call: Call)
      requires Valid() && Owns(call)
      modifies this`callsByUuid, this`receivesBySeq, call`frozen, call`localClosed
      ensures Valid() && AsView() == View.StopCall(old(AsView()), call.place)
    {
      DetachLocked(call);
      label detached:
      call.localClosed := true;
      OneCallChanged@detached(call);
    }

    method InvalidateLocked(call: Call, reason: View.SubError)
      requires Valid() && Owns(call)
      modifies this`callsByUuid, this`receivesBySeq, call
      ensures Valid() && AsView() == View.Invalidate(old(AsView()), call.place, reason)
    {
      DetachLocked(call);
      label detached:
      call.queue, call.result, call.completed := [], None, None;
      call.error, call.localClosed := Some(reason), true;
      OneCallChanged@detached(call);
    }

    /** `_fail_locked`: whether this failure is the first. */
    method FailLocked(reason: View.SubError) returns (first: bool)
      requires Valid()
      modifies this, calls
      ensures Valid() && calls == old(calls) && first == old(error).None?
      ensures AsView() == View.Fail(old(AsView()), reason)
    {
      if error.Some? {
        return false;
      }
      error := Some(reason);
      assert CallValues() == old(CallValues());
      FailCalls(reason);
      callsByUuid, receivesBySeq := map[], map[];
      assert Places(callsByUuid) == map[] && Places(receivesBySeq) == map[];
      return true;
    }

    /** Every call that is neither closed nor terminal gets the error, unless it has one. */
    method FailCalls(reason: View.SubError)
      requires Valid()
      modifies calls
      ensures CallValues() == View.FailCalls(old(CallValues()), reason)
    {
      var i := 0;
      while i < |calls|
        invariant i <= |calls|
        invariant forall j :: 0 <= j < i ==> calls[j].Value() == View.FailCall(old(calls[j].Value()), reason)
        invariant forall j :: i <= j < |calls| ==> calls[j].Value() == old(calls[j].Value())
      {
        var call := calls[i];
        if !call.localClosed && !(call.receive.Some? && call.receive.value.terminal) && call.error.None? {
          call.error := Some(reason);
        }
        call.frozen := None;
        i := i + 1;
      }
    }

    // -------------------------------------------------------------- the reader

    /** The first section of `_accept`: system messages only move the cursor. */
    method Screen(message: Message) returns (screening: Screening)
      requires Valid()
      modifies this`lastSeenSeq
      ensures Valid()
      ensures screening == if error.Some? then Refuse
                           else if message.seqNo <= old(lastSeenSeq) || message.entry.payload.Foreign? then Skip
                           else Parse
      ensures AsView() == if screening.Skip? && old(lastSeenSeq) < message.seqNo
                          then old(AsView()).(lastSeenSeq := message.seqNo) else old(AsView())
    {
      if error.Some? {
        return Refuse;
      }
      if message.seqNo <= lastSeenSeq {
        return Skip;
      }
      if message.entry.payload.Foreign? {
        lastSeenSeq := message.seqNo;
        assert CallValues() == old(CallValues());
        return Skip;
      }
      return Parse;
    }

    /** What follows when the message cannot be parsed. */
    method RejectUnparsed() returns (goOn: bool)
      requires Valid()
      modifies this, calls
      ensures Valid() && calls == old(calls) && !goOn
      ensures AsView() == View.Fail(old(AsView()), View.ProtocolBroken)
    {
      var _ := FailLocked(View.ProtocolBroken);
      goOn := false;
    }

    /** The request branch of the second section of `_accept`. */
    method AcceptRequest(call: Call, message: Message) returns (failed: bool)
      requires Valid() && Owns(call) && error.None? && View.Indexed(AsView()) && message.entry.payload.InferRequest?
      requires message.entry.uuid in callsByUuid && callsByUuid[message.entry.uuid] == call
      modifies this, calls
      ensures Valid() && calls == old(calls)
      ensures failed == !View.SameRequest(old(call.Value()), message)
      ensures AsView() == if failed
                          then View.Fail(View.Invalidate(old(AsView()), call.place, View.ProtocolBroken), View.ProtocolBroken)
                          else View.Admit(old(AsView()), call.place, message)
    {
      assert AsView().byUuid[message.entry.uuid] == call.place;
      InView(call);
      var same := && message.seqNo > 0 && message.entry == call.frozen.value
                  && (call.requestSeq.None? || call.requestSeq.value == message.seqNo);
      if !same {
        InvalidateLocked(call, View.ProtocolBroken);
        failed := FailLocked(View.ProtocolBroken);
      } else {
        Admit(call, message);
        failed := false;
      }
    }

    method Admit(call: Call, message: Message)
      requires Valid() && Owns(call) && call.frozen == Some(message.entry)
      modifies this`callsByUuid, this`receivesBySeq, call`receive, call`frozen
      ensures Valid() && AsView() == View.Admit(old(AsView()), call.place, message)
    {
      call.receive := Some(Receive(message.seqNo, message.seqNo, false, false));
      PlacesAdded(receivesBySeq, message.seqNo, call);
      receivesBySeq := receivesBySeq[message.seqNo := call];
      PlacesRemoved(callsByUuid, message.entry.uuid);
      callsByUuid := callsByUuid - {call.frozen.value.uuid};
      call.frozen := None;
      OneCallChanged(call);
    }

    /** The second section of `_accept`; the result tells the reader whether to go on. */
    method AcceptParsed(message: Message) returns (goOn: bool)
      requires Valid() && View.Indexed(AsView())
      modifies this, calls
      ensures Valid() && calls == old(calls)
      ensures (AsView(), goOn) == View.AcceptMessage(old(AsView()), message)
    {
      if error.Some? {
        return false;
      }
      var failed := false;
      if message.entry.payload.InferRequest? {
        if message.entry.uuid in callsByUuid {
          failed := AcceptRequest(callsByUuid[message.entry.uuid], message);
        }
      } else if !message.entry.payload.Foreign? {
        AcceptReply(message);
      }
      if !failed {
        MoveCursor(message.seqNo);
      }
      return !failed;
    }

    /** `_accept` of one message. */
    method AcceptOne(message: Message) returns (goOn: bool)
      requires Valid() && View.Indexed(AsView())
      modifies this, calls
      ensures Valid() && calls == old(calls)
      ensures View.Shaped(old(AsView())) && (AsView(), goOn) == View.ReadOne(old(AsView()), message)
    {
      View.IndexedIsShaped(AsView());
      var screening := Screen(message);
      match screening
      case Refuse => goOn := false;
      case Skip => goOn := true;
      case Parse => goOn := AcceptParsed(message);
    }

    /** The messages of one subscription of `_read`, up to where it breaks off. */
    method ReadStream(messages: seq<Message>) returns (goOn: bool)
      requires Valid() && View.SubInv(AsView())
      modifies this, calls
      ensures Valid() && calls == old(calls) && View.SubInv(AsView())
      ensures !goOn ==> error.Some?
      ensures exists n :: 0 <= n <= |messages| && (n < |messages| ==> !goOn)
                          && (AsView(), goOn) == View.ReadAll(old(AsView()), messages[..n])
    {
      goOn := true;
      var n := 0;
      assert messages[..0] == [];
      while n < |messages| && goOn
        invariant Valid() && calls == old(calls) && n <= |messages|
        invariant (AsView(), goOn) == View.ReadAll(old(AsView()), messages[..n])
        invariant !goOn ==> error.Some?
      {
        assert messages[..n + 1][..n] == messages[..n];
        ghost var before := AsView();
        goOn := AcceptOne(messages[n]);
        StopsOnlyOnFailure(before, messages[n]);
        n := n + 1;
      }
    }

    lemma StopsOnlyOnFailure(s: View.Sub, m: Message)
      requires View.Shaped(s)
      ensures !View.ReadOne(s, m).1 ==> View.ReadOne(s, m).0.error.Some?
    {
    }

    /** Its branch for everything that is not a request. */
    method AcceptReply(message: Message)
      requires Valid() && View.Indexed(AsView()) && IsReply(message.entry)
      modifies this`callsByUuid, this`receivesBySeq, calls
      ensures Valid()
      ensures var s, r := old(AsView()), RefSeq(message.entry);
              AsView() == if r in s.bySeq && s.calls[s.bySeq[r]].streamId == message.entry.payload.streamId
                          then View.AcceptOutput(s, s.bySeq[r], message) else s
    {
      var requestSeq := if message.entry.payload.InferResult? then message.entry.payload.prevSeq
                        else message.entry.payload.requestSeq;
      if requestSeq in receivesBySeq {
        var call := receivesBySeq[requestSeq];
        assert AsView().bySeq[requestSeq] == call.place;
        InView(call);
        if message.entry.payload.streamId == call.streamId {
          AcceptOutputLocked(call, message);
        }
      }
    }

    method MoveCursor(q: nat)
      requires Valid()
      modifies this`lastSeenSeq
      ensures Valid() && AsView() == old(AsView()).(lastSeenSeq := q)
    {
      lastSeenSeq := q;
      assert CallValues() == old(CallValues());
    }

    /** `_accept_output_locked`. */
    method AcceptOutputLocked(call: Call, message: Message)
      requires Valid() && Owns(call) && IsReply(message.entry)
      requires call.receive.Some? && !call.receive.value.terminal
      modifies this`callsByUuid, this`receivesBySeq, call
      ensures Valid() && call.place < |AsView().calls|
      ensures AsView() == View.AcceptOutput(old(AsView()), call.place, message)
    {
      InView(call);
      var terminal := TakeOutput(call, message);
      OneCallChanged(call);
      if terminal {
        DetachLocked(call);
      }
    }

    /** What it does to the call itself. */
    method TakeOutput(call: Call, message: Message) returns (terminal: bool)
      requires IsReply(message.entry) && call.receive.Some? && !call.receive.value.terminal
      modifies call`receive, call`queue, call`result, call`completed
      ensures var rc := Deliver(View.ReceptionOf(old(call.Value())), call.streaming, message);
              call.Value() == View.Received(old(call.Value()), rc) && terminal == rc.receive.terminal
    {
      var receive := call.receive.value;
      var payload := message.entry.payload;
      var fault := false;
      terminal := false;
      if payload.InferResult? {
        if receive.headSeen {
          return;
        }
        if !call.streaming && payload.resultBody.None? {
          fault := true;
        } else {
          receive := receive.(headSeen := true);
          call.result := Some(message);
          terminal := payload.resultBody.Some?;
          if !terminal {
            receive := receive.(chainSeq := message.seqNo);
          }
        }
      } else if !call.streaming {
        return;
      } else if payload.InferAppend? {
        if !receive.headSeen || payload.prevSeq != receive.chainSeq {
          fault := true;
        } else {
          receive := receive.(chainSeq := message.seqNo);
        }
      } else {
        terminal := true;
        if payload.InferEnd? && payload.endStatus.Completed? {
          call.completed := Some(message);
        }
      }
      if fault {
        terminal := true;
        call.queue := call.queue + [Broken(message)];
      } else {
        call.queue := call.queue + [Business(message)];
      }
      if terminal {
        receive := receive.(terminal := true);
      }
      call.receive := Some(receive);
    }

    // -------------------------------------------------------------- the caller

    /** One look of `next_message`, which waits and looks again while the answer is `Waits`. */
    method NextMessage(call: Call) returns (look: View.Look)
      requires Valid() && Owns(call)
      modifies call`queue
      ensures Valid() && look == View.NextOf(old(call.Value()))
      ensures AsView() == if look.Given? then View.Pop(old(AsView()), call.place) else old(AsView())
      ensures call.Value() == old(call.Value()).(queue := if look.Given? then old(call.queue)[1..] else old(call.queue))
    {
      if call.queue != [] {
        look := View.Given(call.queue[0]);
        call.queue := call.queue[1..];
        OneCallChanged(call);
      } else if call.error.Some? {
        look := View.Raises(call.error.value);
      } else if call.localClosed {
        look := View.Finished;
      } else {
        look := View.Waits;
      }
    }

    /** `check_stream_return`: a call that failed before anything was queued is not returned. */
    method CheckStreamReturn(call: Call) returns (raised: Option<View.SubError>)
      ensures raised == if call.queue == [] then call.error else None
    {
      raised := if call.queue != [] then None else call.error;
    }

    /** The first section of `_close_call`. */
    method CloseBegin(call: Call) returns (turn: CloseTurn)
      requires Valid() && Owns(call)
      modifies this`callsByUuid, this`receivesBySeq, call
      ensures Valid()
      ensures turn == if old(call.closeStarted && !call.closeDone) then WaitForCloser
                      else if old(call.closeDone) then Report(old(call.closeError))
                      else First(old(error).None? && old(call.requestSeq).Some?
                                 && !(old(call.receive).Some? && old(call.receive).value.terminal))
      ensures AsView() == if turn.First? then View.CloseBegin(old(AsView()), call.place) else old(AsView())
      ensures call.requestSeq == old(call.requestSeq)
    {
      InView(call);
      if call.closeStarted && !call.closeDone {
        return WaitForCloser;
      }
      if call.closeDone {
        return Report(call.closeError);
      }
      call.closeStarted := true;
      OneCallChanged(call);
      StopCallLocked(call);
      InView(call);
      var cancels := error.None? && call.requestSeq.Some?
                     && (call.receive.None? || !call.receive.value.terminal);
      return First(cancels);
    }

    /** Its last section. */
    method CloseEnd(call: Call, found: Option<Publishing.Verdict>)
      requires Valid() && Owns(call)
      modifies call`closeError, call`closeDone
      ensures Valid() && AsView() == View.CloseEnd(old(AsView()), call.place, found)
      ensures call.closeDone && call.closeError == found
    {
      call.closeError, call.closeDone := found, true;
      OneCallChanged(call);
    }
  }
}
