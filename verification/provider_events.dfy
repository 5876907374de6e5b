/** The events one provider call yields, and the order it may yield them in. */
module ProviderEvents {
  import opened Protocol

  datatype ProviderEvent =
    | Headers(status: int)
    | Result(status: int, body: Json)
    | Append(status: int, body: Json)
    | Completed(status: int, endBody: Option<Json>)
    | Failed(status: int, body: Json)

  /** How far a call has come: nothing yielded, response headers yielded, nothing left. */
  datatype Stage = Fresh | Open | Closed

  predicate Allowed(streaming: bool, stage: Stage, event: ProviderEvent) {
    match stage
    case Fresh => if streaming then event.Headers? else event.Result?
    case Open => event.Append? || event.Completed? || event.Failed?
    case Closed => false
  }

  function After(event: ProviderEvent): Stage {
    if event.Headers? || event.Append? then Open else Closed
  }

  /** `events` can be yielded, in this order, from `stage` on. */
  predicate Follows(streaming: bool, stage: Stage, events: seq<ProviderEvent>)
    decreases |events|
  {
    events == [] ||
    (Allowed(streaming, stage, events[0]) && Follows(streaming, After(events[0]), events[1..]))
  }

  /** The grammar, read off the whole sequence: an ordinary call yields at most one
      result; a streaming call yields headers, then appends, then at most one terminal. */
  ghost predicate Grammatical(streaming: bool, events: seq<ProviderEvent>) {
    if !streaming then |events| <= 1 && forall e :: e in events ==> e.Result?
    else forall i :: 0 <= i < |events| ==>
      && (events[i].Headers? <==> i == 0)
      && !events[i].Result?
      && (i + 1 < |events| ==> events[i].Headers? || events[i].Append?)
  }

  lemma {:induction false} OpenFollows(events: seq<ProviderEvent>)
    ensures Follows(true, Open, events) <==>
            forall i :: 0 <= i < |events| ==>
              !events[i].Headers? && !events[i].Result? && (i + 1 < |events| ==> events[i].Append?)
    decreases |events|
  {
    if events != [] {
      var rest := events[1..];
      assert forall i :: 0 <= i < |rest| ==> rest[i] == events[i + 1];
      OpenFollows(rest);
      if After(events[0]) == Closed {
        assert rest == [] || !Follows(true, Closed, rest);
      }
      if forall i :: 0 <= i < |events| ==>
           !events[i].Headers? && !events[i].Result? && (i + 1 < |events| ==> events[i].Append?) {
        forall i | 0 <= i < |rest|
          ensures !rest[i].Headers? && !rest[i].Result? && (i + 1 < |rest| ==> rest[i].Append?)
        {
          assert rest[i] == events[i + 1];
        }
      } else if Follows(true, Open, events) {
        forall i | 0 <= i < |events|
          ensures !events[i].Headers? && !events[i].Result? && (i + 1 < |events| ==> events[i].Append?)
        {
          if i > 0 {
            assert events[i] == rest[i - 1];
          }
        }
      }
    }
  }

  /** Stepping through the stages accepts exactly the grammatical sequences. */
  lemma StagesAreTheGrammar(streaming: bool, events: seq<ProviderEvent>)
    ensures Follows(streaming, Fresh, events) <==> Grammatical(streaming, events)
  {
    if events != [] {
      var rest := events[1..];
      if streaming {
        OpenFollows(rest);
        assert forall i :: 0 <= i < |rest| ==> rest[i] == events[i + 1];
        if Follows(true, Fresh, events) {
          forall i | 0 <= i < |events|
            ensures (events[i].Headers? <==> i == 0) && !events[i].Result?
            ensures i + 1 < |events| ==> events[i].Headers? || events[i].Append?
          {
            if i > 0 { assert events[i] == rest[i - 1]; }
          }
        } else if Grammatical(true, events) {
          assert events[0].Headers?;
          forall i | 0 <= i < |rest|
            ensures !rest[i].Headers? && !rest[i].Result? && (i + 1 < |rest| ==> rest[i].Append?)
          {
            assert rest[i] == events[i + 1];
          }
        }
      } else {
        assert rest == [] || !Follows(false, Closed, rest);
      }
    }
  }
}
