// A reading of a model step without a state: whether an event is refused, and why, is decided by the
// history and the events before it. The step validator is proved to judge every stream this way.
module ModelStepReading {
  import opened Basics
  import opened Conversation
  import opened ModelStep

  // ---- What the events before say ----

  predicate Ended(events: seq<ModelEvent>) {
    exists k :: 0 <= k < |events| && events[k].StepFinished?
  }

  predicate Completes(e: ModelEvent, id: string) {
    e.ItemCompleted? && e.item.id == id
  }

  predicate Completed(events: seq<ModelEvent>, id: string) {
    exists k :: 0 <= k < |events| && Completes(events[k], id)
  }

  predicate Calls(e: ModelEvent, callId: string) {
    e.ItemCompleted? && e.item.ToolCall? && e.item.callId == callId
  }

  predicate Called(events: seq<ModelEvent>, callId: string) {
    exists k :: 0 <= k < |events| && Calls(events[k], callId)
  }

  // The kind of item that an event opens or streams.
  function KindIn(e: ModelEvent, id: string): Option<string> {
    match e
    case ItemStarted(x, kind, _) => if x == id then Some(kind) else None
    case ItemCompleted(_) => None
    case StepFinished(_) => None
    case _ => if e.itemId == id then Some(DeltaKind(e)) else None
  }

  // The first event about an item says what kind it is.
  function FirstKind(events: seq<ModelEvent>, id: string): Option<string> {
    if events == [] then None
    else
      match FirstKind(events[..|events| - 1], id)
      case Some(kind) => Some(kind)
      case None => KindIn(events[|events| - 1], id)
  }

  // An item that has been opened and not completed.
  predicate Unfinished(events: seq<ModelEvent>, id: string) {
    FirstKind(events, id).Some? && !Completed(events, id)
  }

  // ---- When an event is refused ----

  ghost function Fault(history: seq<Item>, events: seq<ModelEvent>, e: ModelEvent): Option<StepError> {
    if Ended(events) then Some(EventAfterCompletion)
    else match e
      case StepFinished(_) =>
        if exists id :: Unfinished(events, id) && FirstKind(events, id) != Some("assistant_message") then
          Some(UnfinishedItems)
        else None
      case ItemCompleted(x) =>
        if x.UserMessage? || x.ToolResult? then Some(NonModelItem)
        else if x.id in ItemIds(history) || Completed(events, x.id) then Some(DuplicateItemId)
        else if x.ToolCall? && (Blank(x.callId) || Blank(x.name)) then Some(BlankCall)
        else if x.ToolCall? && (x.callId in CallIds(history) || Called(events, x.callId)) then Some(DuplicateCallId)
        else None
      case ItemStarted(id, kind, _) =>
        if kind !in {"assistant_message", "reasoning", "tool_call"} then Some(UnknownItemType)
        else if id in ItemIds(history) || Completed(events, id) || FirstKind(events, id).Some? then Some(DuplicateStart)
        else None
      case _ =>
        if e.itemId in ItemIds(history) || Completed(events, e.itemId) then Some(DeltaAfterCompletion)
        else if FirstKind(events, e.itemId).Some? && FirstKind(events, e.itemId) != Some(DeltaKind(e)) then
          Some(DeltaTypeChanged)
        else None
  }

  // ---- The state is what the events before say ----

  ghost predicate Holds(history: seq<Item>, events: seq<ModelEvent>, v: StepView) {
    && (v.finished <==> Ended(events))
    && (forall id :: id in v.itemIds <==> id in ItemIds(history) || Completed(events, id))
    && (forall id :: id in v.callIds <==> id in CallIds(history) || Called(events, id))
    && (forall id :: id in v.pending <==> Unfinished(events, id))
    && (forall id | id in v.pending :: FirstKind(events, id) == Some(v.pending[id]))
  }

  lemma NextEvent(events: seq<ModelEvent>, e: ModelEvent)
    ensures var more := events + [e];
            && (Ended(more) <==> Ended(events) || e.StepFinished?)
            && (forall id :: Completed(more, id) <==> Completed(events, id) || Completes(e, id))
            && (forall id :: Called(more, id) <==> Called(events, id) || Calls(e, id))
            && (forall id :: FirstKind(more, id) ==
                  if FirstKind(events, id).Some? then FirstKind(events, id) else KindIn(e, id))
  {
    var more := events + [e];
    assert more[..|events|] == events && more[|events|] == e;
    assert forall k | 0 <= k < |events| :: more[k] == events[k];
  }

  lemma FaultIsObserved(history: seq<Item>, events: seq<ModelEvent>, v: StepView, e: ModelEvent)
    requires Holds(history, events, v)
    ensures ObserveEvent(v, e).1 == Fault(history, events, e)
  {
    match e
    case StepFinished(_) =>
      if id :| id in v.pending && v.pending[id] != "assistant_message" { assert Unfinished(events, id); }
    case _ =>
  }

  lemma HoldsOn(history: seq<Item>, events: seq<ModelEvent>, v: StepView, e: ModelEvent)
    requires Holds(history, events, v) && ObserveEvent(v, e).1.None?
    ensures Holds(history, events + [e], ObserveEvent(v, e).0)
  {
    match e
    case StepFinished(_) => NextEvent(events, e);
    case ItemCompleted(x) => HoldsOnCompleted(history, events, v, e);
    case _ => HoldsOnOpened(history, events, v, e);
  }

  lemma HoldsOnCompleted(history: seq<Item>, events: seq<ModelEvent>, v: StepView, e: ModelEvent)
    requires Holds(history, events, v) && ObserveEvent(v, e).1.None? && e.ItemCompleted?
    ensures Holds(history, events + [e], ObserveEvent(v, e).0)
  {
    NextEvent(events, e);
  }

  lemma HoldsOnOpened(history: seq<Item>, events: seq<ModelEvent>, v: StepView, e: ModelEvent)
    requires Holds(history, events, v) && ObserveEvent(v, e).1.None? && !e.ItemCompleted? && !e.StepFinished?
    ensures Holds(history, events + [e], ObserveEvent(v, e).0)
  {
    NextEvent(events, e);
  }

  lemma {:induction false} StreamHolds(history: seq<Item>, events: seq<ModelEvent>)
    requires ObserveAll(history, events).Some?
    ensures Holds(history, events, ObserveAll(history, events).value)
  {
    if events != [] {
      var init, e := events[..|events| - 1], events[|events| - 1];
      StreamHolds(history, init);
      HoldsOn(history, init, ObserveAll(history, init).value, e);
      assert events == init + [e];
    }
  }

  ghost predicate Faultless(history: seq<Item>, events: seq<ModelEvent>) {
    events != [] ==>
      var init, e := events[..|events| - 1], events[|events| - 1];
      Faultless(history, init) && Fault(history, init, e).None?
  }

  // A stream is accepted exactly when none of its events is at fault, given those before it.
  lemma {:induction false} AcceptedIsFaultless(history: seq<Item>, events: seq<ModelEvent>)
    ensures ObserveAll(history, events).Some? <==> Faultless(history, events)
  {
    if events != [] {
      var init, e := events[..|events| - 1], events[|events| - 1];
      AcceptedIsFaultless(history, init);
      if ObserveAll(history, init).Some? { RefusedForItsFault(history, init, e); }
    }
  }

  // And the event that ends it is refused for the fault it has.
  lemma RefusedForItsFault(history: seq<Item>, events: seq<ModelEvent>, e: ModelEvent)
    requires ObserveAll(history, events).Some?
    ensures ObserveEvent(ObserveAll(history, events).value, e).1 == Fault(history, events, e)
  {
    StreamHolds(history, events);
    FaultIsObserved(history, events, ObserveAll(history, events).value, e);
  }
}
