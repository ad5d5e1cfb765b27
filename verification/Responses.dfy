// The Responses stream adapter: provider events in, model-step events out.
module Responses {
  import opened Basics
  import opened CanonicalJson
  import opened Conversation
  import opened ModelStep

  // ---- Reading provider values; None is a protocol error ----

  // value[key]: Null when absent.
  function At(v: Json, key: string): Json {
    if v.Object? && HasKey(v.fields, key) then Get(v.fields, key) else Null
  }

  function Str(v: Json, key: string): Option<string> {
    match At(v, key)
    case String(s) => Some(s)
    case _ => None
  }

  function ParseNat(digits: string, value: nat): Option<nat> {
    if digits == "" then Some(value)
    else if '0' <= digits[0] <= '9' then ParseNat(digits[1..], 10 * value + (digits[0] as int - '0' as int))
    else None
  }

  // Value::as_u64
  function AsIndex(v: Json): Option<nat> {
    if !v.Number? || v.literal == "" then None
    else match ParseNat(v.literal, 0)
      case Some(n) => if n < 0x1_0000_0000_0000_0000 then Some(n) else None
      case None => None
  }

  function PhaseOf(v: Json): Option<Phase> {
    match Str(v, "phase")
    case None => Some(FinalAnswer)
    case Some(s) =>
      if s == "final_answer" then Some(FinalAnswer)
      else if s == "commentary" then Some(Commentary)
      else None
  }

  function OutputTexts(parts: seq<Json>): Option<seq<Content>> {
    if parts == [] then Some([])
    else match (Str(parts[0], "type"), Str(parts[0], "text"), OutputTexts(parts[1..]))
      case (Some("output_text"), Some(text), Some(rest)) => Some([Text(text)] + rest)
      case _ => None
  }

  function Summary(parts: seq<Json>): Option<seq<string>> {
    if parts == [] then Some([])
    else match (Str(parts[0], "type"), Str(parts[0], "text"), Summary(parts[1..]))
      case (Some("summary_text"), Some(text), Some(rest)) => Some([text] + rest)
      case _ => None
  }

  function JoinLines(lines: seq<string>): string {
    if lines == [] then "" else if |lines| == 1 then lines[0] else lines[0] + "\n" + JoinLines(lines[1..])
  }

  function CanonicalMessage(v: Json, id: string): Option<Item> {
    if Str(v, "role") != Some("assistant") || !At(v, "content").Array? then None
    else match (OutputTexts(At(v, "content").elements), PhaseOf(v))
      case (Some(content), Some(phase)) => Some(AssistantMessage(id, content, phase))
      case _ => None
  }

  function CanonicalCall(v: Json, id: string, parse: string -> Option<Json>): Option<Item> {
    match (Str(v, "arguments"), Str(v, "call_id"), Str(v, "name"))
    case (Some(raw), Some(callId), Some(name)) => Some(ToolCall(id, callId, Str(v, "namespace"), name, parse(raw), raw))
    case _ => None
  }

  function CanonicalReasoning(v: Json, id: string): Option<Item> {
    if At(v, "content").Array? && At(v, "content").elements != [] then None
    else if !At(v, "summary").Array? then None
    else match Summary(At(v, "summary").elements)
      case Some(lines) => Some(Reasoning(id, JoinLines(lines), None, Str(v, "encrypted_content")))
      case None => None
  }

  function CanonicalItem(v: Json, parse: string -> Option<Json>): (r: Option<Item>)
    ensures r.Some? ==> Str(v, "id") == Some(r.value.id) && !r.value.UserMessage? && !r.value.ToolResult?
  {
    match (Str(v, "id"), Str(v, "type"))
    case (Some(id), Some(kind)) =>
      if kind == "message" then CanonicalMessage(v, id)
      else if kind == "function_call" then CanonicalCall(v, id, parse)
      else if kind == "reasoning" then CanonicalReasoning(v, id)
      else None
    case _ => None
  }

  // ---- The items of one response ----

  datatype ItemState = ItemState(value: Json, completed: bool)

  datatype Tracker = Tracker(items: map<nat, ItemState>, ids: set<string>)

  function KindOf(v: Json): Option<string> {
    match Str(v, "type")
    case None => None
    case Some(kind) =>
      if kind == "message" then Some("assistant_message")
      else if kind == "reasoning" then Some("reasoning")
      else if kind == "function_call" then Some("tool_call")
      else None
  }

  function StartPhase(v: Json): Option<Option<Phase>> {
    match Str(v, "type")
    case Some("message") => (match PhaseOf(v) case Some(p) => Some(Some(p)) case None => None)
    case Some("reasoning") => Some(Some(Commentary))
    case _ => Some(None)
  }

  // An item becomes known: its start event, or nothing if the index already holds it.
  function StartItem(t: Tracker, index: nat, v: Json): Option<(Tracker, seq<ModelEvent>)> {
    if index in t.items then
      if At(t.items[index].value, "id") != At(v, "id") then None else Some((t, []))
    else match (Str(v, "id"), KindOf(v), StartPhase(v))
      case (Some(id), Some(kind), Some(phase)) =>
        if id in t.ids then None
        else Some((Tracker(t.items[index := ItemState(v, false)], t.ids + {id}), [ItemStarted(id, kind, phase)]))
      case _ => None
  }

  function FinishItem(t: Tracker, index: nat, v: Json,
                      parse: string -> Option<Json>): Option<(Tracker, seq<ModelEvent>)> {
    match StartItem(t, index, v)
    case None => None
    case Some((s, events)) =>
      match CanonicalItem(v, parse)
      case None => None
      case Some(item) =>
        if index !in s.items then None
        else if s.items[index].completed then
          if CanonicalItem(s.items[index].value, parse) != Some(item) then None else Some((s, events))
        else
          Some((s.(items := s.items[index := ItemState(v, true)]), events + [ItemCompleted(item)]))
  }

  class ResponseState {
    var items: map<nat, ItemState>
    var ids: set<string>

    function View(): Tracker
      reads this
    {
      Tracker(items, ids)
    }

    constructor ()
      ensures View() == Tracker(map[], {})
    {
      items, ids := map[], {};
    }

    // None as a result is a protocol error, after which the stream ends.
    method Start(index: nat, value: Json) returns (r: Option<seq<ModelEvent>>)
      modifies this
      ensures r.Some? <==> StartItem(old(View()), index, value).Some?
      ensures r.Some? ==> (View(), r.value) == StartItem(old(View()), index, value).value
    {
      if index in items {
        if At(items[index].value, "id") != At(value, "id") { return None; }
        return Some([]);
      }
      var id := Str(value, "id");
      if id.None? || id.value in ids { return None; }
      var kind, phase := KindOf(value), StartPhase(value);
      if kind.None? || phase.None? { return None; }
      ids := ids + {id.value};
      items := items[index := ItemState(value, false)];
      return Some([ItemStarted(id.value, kind.value, phase.value)]);
    }

    method Finish(index: nat, value: Json, parse: string -> Option<Json>) returns (r: Option<seq<ModelEvent>>)
      modifies this
      ensures r.Some? <==> FinishItem(old(View()), index, value, parse).Some?
      ensures r.Some? ==> (View(), r.value) == FinishItem(old(View()), index, value, parse).value
    {
      r := Start(index, value);
      if r.None? { return; }
      var events := r.value;
      var item := CanonicalItem(value, parse);
      if item.None? { return None; }
      if items[index].completed {
        if CanonicalItem(items[index].value, parse) != item { return None; }
      } else {
        items := items[index := ItemState(value, true)];
        events := events + [ItemCompleted(item.value)];
      }
      return Some(events);
    }
  }

  // ---- Well-formed traces ----

  // A trace by itself: the items that are open with their kinds, and those completed.
  datatype Trace = Trace(open: map<string, string>, done: map<string, Item>, finished: bool)

  // Every item is started once, receives deltas of its own kind only while open, is completed
  // once, and the step finishes when nothing is open.
  function TraceStep(l: Trace, e: ModelEvent): Option<Trace> {
    if l.finished then None
    else match e
      case ItemStarted(id, kind, _) =>
        if id in l.open || id in l.done || kind !in {"assistant_message", "reasoning", "tool_call"} then None
        else Some(l.(open := l.open[id := kind]))
      case ItemCompleted(x) =>
        if x.id !in l.open || x.UserMessage? || x.ToolResult? then None
        else Some(l.(open := l.open - {x.id}, done := l.done[x.id := x]))
      case StepFinished(_) => if l.open == map[] then Some(l.(finished := true)) else None
      case _ => if e.itemId in l.open && l.open[e.itemId] == DeltaKind(e) then Some(l) else None
  }

  function TraceOf(events: seq<ModelEvent>): Option<Trace> {
    if events == [] then Some(Trace(map[], map[], false))
    else match TraceOf(events[..|events| - 1])
      case None => None
      case Some(l) => TraceStep(l, events[|events| - 1])
  }

  // The ids of the calls completed in a trace.
  function CompletedCalls(events: seq<ModelEvent>): set<string> {
    if events == [] then {}
    else
      var e := events[|events| - 1];
      CompletedCalls(events[..|events| - 1]) + if e.ItemCompleted? && e.item.ToolCall? then {e.item.callId} else {}
  }

  // The conditions the adapter cannot know: item ids new to the history, and calls with
  // nonblank names and ids that neither the history nor this step has used.
  predicate FreshTrace(history: seq<Item>, events: seq<ModelEvent>) {
    events != [] ==>
      var before, e := events[..|events| - 1], events[|events| - 1];
      && FreshTrace(history, before)
      && (e.ItemStarted? ==> e.itemId !in ItemIds(history))
      && (e.ItemCompleted? && e.item.ToolCall? ==>
            && !Blank(e.item.callId) && !Blank(e.item.name)
            && e.item.callId !in CallIds(history) + CompletedCalls(before))
  }

  // The validator accepts a well-formed trace exactly when it is fresh, and then its state is
  // the trace's own on top of the history.
  lemma {:induction false} TraceObserved(history: seq<Item>, events: seq<ModelEvent>)
    requires TraceOf(events).Some?
    ensures ObserveAll(history, events).Some? <==> FreshTrace(history, events)
    ensures TraceOf(events).value.open.Keys !! TraceOf(events).value.done.Keys
    ensures FreshTrace(history, events) ==>
      var v, l := ObserveAll(history, events).value, TraceOf(events).value;
      && v == StepView(l.finished, ItemIds(history) + l.done.Keys, CallIds(history) + CompletedCalls(events), l.open)
      && ItemIds(history) !! l.open.Keys + l.done.Keys
  {
    if events == [] { return; }
    var before, e := events[..|events| - 1], events[|events| - 1];
    TraceObserved(history, before);
    if FreshTrace(history, before) {
      var v, l := ObserveAll(history, before).value, TraceOf(before).value;
      match e {
        case ItemCompleted(x) =>
          var r := TraceStep(l, e).value;
          assert r.done.Keys == l.done.Keys + {x.id} && r.open.Keys == l.open.Keys - {x.id};
          assert ItemIds(history) + l.done.Keys + {x.id} == ItemIds(history) + r.done.Keys;
          assert x.ToolCall? ==>
            CallIds(history) + CompletedCalls(before) + {x.callId} == CallIds(history) + CompletedCalls(events);
        case ItemStarted(id, kind, _) =>
          assert TraceStep(l, e).value.open.Keys == l.open.Keys + {id};
        case _ =>
      }
    }
  }

  lemma TraceAppend(events: seq<ModelEvent>, e: ModelEvent)
    ensures TraceOf(events + [e]) == match TraceOf(events) case None => None case Some(l) => TraceStep(l, e)
  {
    assert (events + [e])[..|events|] == events;
  }

  // ---- The tracker against the trace it has emitted ----

  // What matters of a tracked item.
  datatype Slot = Open(id: string, kind: string) | Done(item: Item) | Malformed

  function SlotOf(s: ItemState, parse: string -> Option<Json>): Slot {
    if s.completed then match CanonicalItem(s.value, parse) case Some(x) => Done(x) case None => Malformed
    else match (Str(s.value, "id"), KindOf(s.value)) case (Some(id), Some(kind)) => Open(id, kind) case _ => Malformed
  }

  function SlotsOf(items: map<nat, ItemState>, parse: string -> Option<Json>): map<nat, Slot> {
    map i | i in items :: SlotOf(items[i], parse)
  }

  function SlotId(s: Slot): string {
    match s
    case Open(id, _) => id
    case Done(x) => x.id
    case Malformed => ""
  }

  // The slots are those of the trace; `owner` says which output index an id belongs to.
  ghost predicate Tracks(slots: map<nat, Slot>, l: Trace, owner: map<string, nat>) {
    && !l.finished && owner.Keys == l.open.Keys + l.done.Keys
    && (forall id {:trigger Owned(id, slots, owner)} | id in owner :: Owned(id, slots, owner))
    && (forall i {:trigger SlotTracked(slots[i], i, l, owner)} | i in slots :: SlotTracked(slots[i], i, l, owner))
  }

  ghost predicate Owned(id: string, slots: map<nat, Slot>, owner: map<string, nat>) {
    id in owner && owner[id] in slots && SlotId(slots[owner[id]]) == id
  }

  ghost predicate SlotTracked(s: Slot, index: nat, l: Trace, owner: map<string, nat>) {
    && !s.Malformed? && SlotId(s) in owner && owner[SlotId(s)] == index
    && (s.Done? ==> s.item.id !in l.open && s.item.id in l.done && l.done[s.item.id] == s.item)
    && (s.Open? ==> s.id !in l.done && s.id in l.open && l.open[s.id] == s.kind)
  }

  lemma OpenSlot(slots: map<nat, Slot>, l: Trace, owner: map<string, nat>, index: nat, id: string, kind: string,
                 phase: Option<Phase>)
    requires Tracks(slots, l, owner) && index !in slots && id !in owner
    requires kind in {"assistant_message", "reasoning", "tool_call"}
    ensures TraceStep(l, ItemStarted(id, kind, phase)).Some?
    ensures Tracks(slots[index := Open(id, kind)], TraceStep(l, ItemStarted(id, kind, phase)).value, owner[id := index])
  {
    var l', owner', slots' := l.(open := l.open[id := kind]), owner[id := index], slots[index := Open(id, kind)];
    assert TraceStep(l, ItemStarted(id, kind, phase)) == Some(l');
    assert slots'.Keys == slots.Keys + {index} && l'.open.Keys == l.open.Keys + {id}
           && owner'.Keys == owner.Keys + {id};
    forall i | i in slots' ensures SlotTracked(slots'[i], i, l', owner') {
      if i != index { assert SlotTracked(slots[i], i, l, owner); }
    }
    forall k | k in owner' ensures Owned(k, slots', owner') {
      if k != id { assert Owned(k, slots, owner); }
    }
  }

  lemma CompleteSlot(slots: map<nat, Slot>, l: Trace, owner: map<string, nat>, index: nat, item: Item)
    requires Tracks(slots, l, owner) && index in slots && slots[index].Open? && slots[index].id == item.id
    requires !item.UserMessage? && !item.ToolResult?
    ensures TraceStep(l, ItemCompleted(item)).Some?
    ensures Tracks(slots[index := Done(item)], TraceStep(l, ItemCompleted(item)).value, owner)
  {
    assert SlotTracked(slots[index], index, l, owner);
    var l', slots' := l.(open := l.open - {item.id}, done := l.done[item.id := item]), slots[index := Done(item)];
    assert TraceStep(l, ItemCompleted(item)) == Some(l');
    assert slots'.Keys == slots.Keys && l'.open.Keys + l'.done.Keys == l.open.Keys + l.done.Keys;
    forall i | i in slots' ensures SlotTracked(slots'[i], i, l', owner) {
      if i != index { assert SlotTracked(slots[i], i, l, owner); }
    }
    forall k | k in owner ensures Owned(k, slots', owner) { assert Owned(k, slots, owner); }
  }

  // ---- The stream ----

  ghost predicate Emitting(t: Tracker, events: seq<ModelEvent>, owner: map<string, nat>,
                           parse: string -> Option<Json>) {
    && TraceOf(events).Some? && t.ids == owner.Keys
    && Tracks(SlotsOf(t.items, parse), TraceOf(events).value, owner)
  }

  lemma SlotUpdate(items: map<nat, ItemState>, index: nat, s: ItemState, parse: string -> Option<Json>)
    ensures SlotsOf(items[index := s], parse) == SlotsOf(items, parse)[index := SlotOf(s, parse)]
  {
  }

  lemma StartEmits(t: Tracker, events: seq<ModelEvent>, owner: map<string, nat>, index: nat, v: Json,
                   parse: string -> Option<Json>)
    returns (owner': map<string, nat>)
    requires Emitting(t, events, owner, parse) && StartItem(t, index, v).Some?
    ensures var (s, more) := StartItem(t, index, v).value;
      && Emitting(s, events + more, owner', parse)
      && index in s.items && At(s.items[index].value, "id") == At(v, "id")
      && (forall i | i in t.items :: i in s.items && s.items[i] == t.items[i])
  {
    var (s, more) := StartItem(t, index, v).value;
    if index in t.items {
      assert events + more == events;
      return owner;
    }
    var e := more[0];
    assert more == [e] && s.items[index] == ItemState(v, false);
    owner' := owner[e.itemId := index];
    OpenSlot(SlotsOf(t.items, parse), TraceOf(events).value, owner, index, e.itemId, e.itemType, e.phase);
    SlotUpdate(t.items, index, ItemState(v, false), parse);
    TraceAppend(events, e);
  }

  lemma FinishEmits(t: Tracker, events: seq<ModelEvent>, owner: map<string, nat>, index: nat, v: Json,
                    parse: string -> Option<Json>)
    returns (owner': map<string, nat>)
    requires Emitting(t, events, owner, parse) && FinishItem(t, index, v, parse).Some?
    ensures var (s, more) := FinishItem(t, index, v, parse).value;
      && Emitting(s, events + more, owner', parse)
      && index in s.items && FinishedAs(s.items[index], v, parse)
      && (forall i | i in t.items && t.items[i].completed :: i in s.items && s.items[i] == t.items[i])
  {
    var (s, started) := StartItem(t, index, v).value;
    owner' := StartEmits(t, events, owner, index, v, parse);
    if s.items[index].completed {
      assert FinishItem(t, index, v, parse).value == (s, started);
    } else {
      CompleteEmits(s, events + started, owner', index, v, parse);
      var item := CanonicalItem(v, parse).value;
      assert events + started + [ItemCompleted(item)] == events + (started + [ItemCompleted(item)]);
    }
  }

  lemma CompleteEmits(s: Tracker, events: seq<ModelEvent>, owner: map<string, nat>, index: nat, v: Json,
                      parse: string -> Option<Json>)
    requires Emitting(s, events, owner, parse) && index in s.items && !s.items[index].completed
    requires At(s.items[index].value, "id") == At(v, "id") && CanonicalItem(v, parse).Some?
    ensures Emitting(s.(items := s.items[index := ItemState(v, true)]),
              events + [ItemCompleted(CanonicalItem(v, parse).value)], owner, parse)
  {
    var item, slots := CanonicalItem(v, parse).value, SlotsOf(s.items, parse);
    assert SlotTracked(slots[index], index, TraceOf(events).value, owner);
    assert slots[index].Open? && slots[index].id == item.id;
    CompleteSlot(slots, TraceOf(events).value, owner, index, item);
    SlotUpdate(s.items, index, ItemState(v, true), parse);
    TraceAppend(events, ItemCompleted(item));
  }

  // An open item and its index: the target of a delta or part event.
  function ItemMut(t: Tracker, event: Json): Option<nat> {
    match AsIndex(At(event, "output_index"))
    case None => None
    case Some(index) =>
      if index !in t.items || Str(event, "item_id").None? || t.items[index].completed then None
      else if Str(event, "item_id") != Str(t.items[index].value, "id") then None
      else Some(index)
  }

  function DeltaEvent(kind: string, v: Json, delta: string): Option<ModelEvent> {
    match (Str(v, "id"), Str(v, "type"))
    case (Some(id), Some(itemType)) =>
      if kind == "response.output_text.delta" then
        if itemType != "message" then None else Some(TextDelta(id, delta))
      else if kind == "response.reasoning_summary_text.delta" then
        if itemType != "reasoning" then None else Some(ReasoningDelta(id, delta))
      else if itemType != "function_call" then None
      else (match Str(v, "call_id") case Some(callId) => Some(ToolCallDelta(id, callId, delta)) case None => None)
    case _ => None
  }

  lemma DeltaEmits(t: Tracker, events: seq<ModelEvent>, owner: map<string, nat>, index: nat, kind: string,
                   delta: string, parse: string -> Option<Json>)
    requires Emitting(t, events, owner, parse) && index in t.items && !t.items[index].completed
    requires DeltaEvent(kind, t.items[index].value, delta).Some?
    ensures Emitting(t, events + [DeltaEvent(kind, t.items[index].value, delta).value], owner, parse)
  {
    var e := DeltaEvent(kind, t.items[index].value, delta).value;
    assert SlotTracked(SlotsOf(t.items, parse)[index], index, TraceOf(events).value, owner);
    TraceAppend(events, e);
  }

  function Count(v: Json): nat {
    match AsIndex(v) case Some(n) => n case None => 0
  }

  function UsageOf(usage: Json): Usage {
    Usage(Count(At(usage, "input_tokens")), Count(At(usage, "output_tokens")),
      Count(At(At(usage, "output_tokens_details"), "reasoning_tokens")),
      Count(At(At(usage, "input_tokens_details"), "cached_tokens")))
  }

  // How the stream ended: with the output of response.completed, with a failure the provider
  // reported, or with an adapter error.
  datatype StreamEnd = Completed(output: seq<Json>) | ProviderFailure | AdapterError

  const DELTA_EVENTS: set<string> :=
    {"response.output_text.delta", "response.reasoning_summary_text.delta", "response.function_call_arguments.delta"}

  const PART_EVENTS: set<string> :=
    {"response.output_text.done", "response.function_call_arguments.done", "response.reasoning_summary_text.done",
     "response.content_part.added", "response.content_part.done",
     "response.reasoning_summary_part.added", "response.reasoning_summary_part.done"}

  const IGNORED_EVENTS: set<string> :=
    {"response.created", "response.in_progress", "response.queued", "response.output_text.annotation.added"}

  // The terminal output is exactly the completed items, each in its canonical form.
  ghost predicate Terminal(events: seq<ModelEvent>, output: seq<Json>, parse: string -> Option<Json>) {
    && TraceOf(events).Some? && TraceOf(events).value.finished && TraceOf(events).value.open == map[]
    && AllOutput(TraceOf(events).value.done, output, parse)
  }

  ghost predicate AllOutput(done: map<string, Item>, output: seq<Json>, parse: string -> Option<Json>) {
    && (forall k | 0 <= k < |output| :: OutputDone(output[k], done, parse))
    && (forall j, k | 0 <= j < k < |output| ::
      CanonicalItem(output[j], parse).value.id != CanonicalItem(output[k], parse).value.id)
    && (forall id | id in done :: exists k :: 0 <= k < |output| && CanonicalItem(output[k], parse) == Some(done[id]))
  }

  predicate FinishedAs(s: ItemState, v: Json, parse: string -> Option<Json>) {
    s.completed && CanonicalItem(v, parse).Some? && CanonicalItem(s.value, parse) == CanonicalItem(v, parse)
  }

  ghost predicate OutputDone(v: Json, done: map<string, Item>, parse: string -> Option<Json>) {
    var x := CanonicalItem(v, parse);
    x.Some? && x.value.id in done && done[x.value.id] == x.value
  }

  // ---- What the stream emits, event by event ----

  datatype Handled = Goes(tracker: Tracker, more: seq<ModelEvent>) | Completes(response: Json) | Ends(end: StreamEnd)

  function Went(r: Option<(Tracker, seq<ModelEvent>)>): Handled {
    match r
    case Some((t, more)) => Goes(t, more)
    case None => Ends(AdapterError)
  }

  function Handle(t: Tracker, event: Json, parse: string -> Option<Json>): Handled {
    match Str(event, "type")
    case None => Ends(AdapterError)
    case Some(kind) =>
      if kind in IGNORED_EVENTS then Goes(t, [])
      else if kind == "response.output_item.added" || kind == "response.output_item.done" then
        (match AsIndex(At(event, "output_index"))
         case None => Ends(AdapterError)
         case Some(index) =>
           if kind == "response.output_item.added" then Went(StartItem(t, index, At(event, "item")))
           else Went(FinishItem(t, index, At(event, "item"), parse)))
      else if kind in DELTA_EVENTS then HandleDelta(t, event, kind)
      else if kind in PART_EVENTS then (if ItemMut(t, event).None? then Ends(AdapterError) else Goes(t, []))
      else if kind == "response.completed" then Completes(At(event, "response"))
      else if kind in {"error", "response.failed", "response.incomplete"} then Ends(ProviderFailure)
      else Ends(AdapterError)
  }

  function HandleDelta(t: Tracker, event: Json, kind: string): Handled {
    match (ItemMut(t, event), Str(event, "delta"))
    case (Some(index), Some(delta)) =>
      (match DeltaEvent(kind, t.items[index].value, delta)
       case Some(e) => Goes(t, [e])
       case None => Ends(AdapterError))
    case _ => Ends(AdapterError)
  }

  // The terminal output finished from its k-th item on: what that emits, and the tracker if none failed.
  function FinishFrom(t: Tracker, items: seq<Json>, k: nat,
                      parse: string -> Option<Json>): (seq<ModelEvent>, Option<Tracker>)
    requires k <= |items|
    decreases |items| - k
  {
    if k == |items| then ([], Some(t))
    else
      match FinishItem(t, k, items[k], parse)
      case None => ([], None)
      case Some((u, more)) =>
        var (rest, end) := FinishFrom(u, items, k + 1, parse);
        (more + rest, end)
  }

  function Complete(t: Tracker, response: Json, parse: string -> Option<Json>): (seq<ModelEvent>, Option<seq<Json>>) {
    if Str(response, "status") != Some("completed") || !At(response, "output").Array? then ([], None)
    else
      var items := At(response, "output").elements;
      match FinishFrom(t, items, 0, parse)
      case (es, None) => (es, None)
      case (es, Some(s)) =>
        if |s.items| != |items| || exists i :: i in s.items && !s.items[i].completed then (es, None)
        else (es + [StepFinished(UsageOf(At(response, "usage")))], Some(items))
  }

  // The stream from its k-th event on: what it emits, and how it ends. Running out of events
  // without response.completed is an error too.
  function ParsedFrom(t: Tracker, input: seq<Json>, k: nat, parse: string -> Option<Json>): (seq<ModelEvent>, StreamEnd)
    requires k <= |input|
    decreases |input| - k
  {
    if k == |input| then ([], AdapterError)
    else
      match Handle(t, input[k], parse)
      case Ends(end) => ([], end)
      case Completes(response) =>
        var (more, output) := Complete(t, response, parse);
        (more, EndOf(output))
      case Goes(u, more) =>
        var (rest, end) := ParsedFrom(u, input, k + 1, parse);
        (more + rest, end)
  }

  function EndOf(output: Option<seq<Json>>): StreamEnd {
    if output.Some? then Completed(output.value) else AdapterError
  }

  function Outcome(input: seq<Json>, parse: string -> Option<Json>): (seq<ModelEvent>, StreamEnd) {
    ParsedFrom(Tracker(map[], {}), input, 0, parse)
  }

  // `all` is what has been emitted and what is still to come.
  predicate Continues<R(==)>(all: (seq<ModelEvent>, R), emitted: seq<ModelEvent>, rest: (seq<ModelEvent>, R)) {
    all.0 == emitted + rest.0 && all.1 == rest.1
  }

  lemma ContinuesOn<R>(all: (seq<ModelEvent>, R), emitted: seq<ModelEvent>, more: seq<ModelEvent>,
                       rest: (seq<ModelEvent>, R))
    requires Continues(all, emitted, (more + rest.0, rest.1))
    ensures Continues(all, emitted + more, rest)
  {
  }

  ghost predicate AllFinished(t: Tracker, items: seq<Json>, k: nat, parse: string -> Option<Json>)
    requires k <= |items|
  {
    forall j: nat | j < k :: j in t.items && FinishedAs(t.items[j], items[j], parse)
  }

  // Finishes every item of the terminal output, in order.
  method FinishAll(state: ResponseState, items: seq<Json>, parse: string -> Option<Json>, emitted0: seq<ModelEvent>,
                   ghost owner0: map<string, nat>)
    returns (emitted: seq<ModelEvent>, ok: bool, ghost owner: map<string, nat>)
    requires Emitting(state.View(), emitted0, owner0, parse)
    modifies state
    ensures TraceOf(emitted).Some?
    ensures ok ==> Emitting(state.View(), emitted, owner, parse) && AllFinished(state.View(), items, |items|, parse)
    ensures var (more, t) := FinishFrom(old(state.View()), items, 0, parse);
            emitted == emitted0 + more && t == (if ok then Some(state.View()) else None)
  {
    emitted, ok, owner := emitted0, true, owner0;
    ghost var first := FinishFrom(state.View(), items, 0, parse);
    ghost var all := (emitted0 + first.0, first.1);
    for k := 0 to |items|
      invariant Emitting(state.View(), emitted, owner, parse) && AllFinished(state.View(), items, k, parse)
      invariant Continues(all, emitted, FinishFrom(state.View(), items, k, parse))
    {
      emitted, ok, owner := FinishOne(state, items, k, parse, emitted, owner, all);
      if !ok { return; }
    }
  }

  method FinishOne(state: ResponseState, items: seq<Json>, k: nat, parse: string -> Option<Json>,
                   before: seq<ModelEvent>,
                   ghost owner0: map<string, nat>, ghost all: (seq<ModelEvent>, Option<Tracker>))
    returns (emitted: seq<ModelEvent>, ok: bool, ghost owner: map<string, nat>)
    requires k < |items| && Emitting(state.View(), before, owner0, parse) && AllFinished(state.View(), items, k, parse)
    requires Continues(all, before, FinishFrom(state.View(), items, k, parse))
    modifies state
    ensures TraceOf(emitted).Some?
    ensures ok ==> Emitting(state.View(), emitted, owner, parse) && AllFinished(state.View(), items, k + 1, parse)
    ensures ok ==> Continues(all, emitted, FinishFrom(state.View(), items, k + 1, parse))
    ensures !ok ==> all == (emitted, None)
  {
    emitted, ok, owner := before, false, owner0;
    ghost var t := state.View();
    FinishNext(t, items, k, parse, before, all);
    var more := state.Finish(k, items[k], parse);
    if more.None? { return; }
    owner := FinishEmits(t, before, owner0, k, items[k], parse);
    OneMoreFinished(t, state.View(), items, k, parse);
    emitted, ok := before + more.value, true;
  }

  lemma FinishNext(t: Tracker, items: seq<Json>, k: nat, parse: string -> Option<Json>, before: seq<ModelEvent>,
                   all: (seq<ModelEvent>, Option<Tracker>))
    requires k < |items| && Continues(all, before, FinishFrom(t, items, k, parse))
    ensures match FinishItem(t, k, items[k], parse)
            case None => all == (before, None)
            case Some((u, more)) => Continues(all, before + more, FinishFrom(u, items, k + 1, parse))
  {
    match FinishItem(t, k, items[k], parse)
    case None => assert before + [] == before;
    case Some((u, more)) => ContinuesOn(all, before, more, FinishFrom(u, items, k + 1, parse));
  }

  lemma OneMoreFinished(t: Tracker, u: Tracker, items: seq<Json>, k: nat, parse: string -> Option<Json>)
    requires k < |items| && AllFinished(t, items, k, parse)
    requires k in u.items && FinishedAs(u.items[k], items[k], parse)
    requires forall i | i in t.items && t.items[i].completed :: i in u.items && u.items[i] == t.items[i]
    ensures AllFinished(u, items, k + 1, parse)
  {
    forall j: nat | j < k ensures j in u.items && FinishedAs(u.items[j], items[j], parse) {
      assert j in t.items && FinishedAs(t.items[j], items[j], parse);
    }
  }

  // response.completed: finish the terminal output, then check that nothing is missing.
  method HandleCompleted(state: ResponseState, response: Json, parse: string -> Option<Json>,
                         emitted0: seq<ModelEvent>, ghost owner0: map<string, nat>)
    returns (emitted: seq<ModelEvent>, output: Option<seq<Json>>)
    requires Emitting(state.View(), emitted0, owner0, parse)
    modifies state
    ensures TraceOf(emitted).Some?
    ensures output.Some? ==> Terminal(emitted, output.value, parse)
    ensures var (more, items) := Complete(old(state.View()), response, parse);
            emitted == emitted0 + more && output == items
  {
    emitted, output := emitted0, None;
    if Str(response, "status") != Some("completed") || !At(response, "output").Array? { return; }
    var items := At(response, "output").elements;
    var ok: bool;
    ghost var owner: map<string, nat>;
    emitted, ok, owner := FinishAll(state, items, parse, emitted, owner0);
    if !ok { return; }
    var done;
    emitted, done := EndOutput(state, items, UsageOf(At(response, "usage")), parse, emitted, owner);
    if done { output := Some(items); }
  }

  // Nothing may be missing from the terminal output.
  method EndOutput(state: ResponseState, items: seq<Json>, usage: Usage, parse: string -> Option<Json>,
                   emitted0: seq<ModelEvent>, ghost owner: map<string, nat>)
    returns (emitted: seq<ModelEvent>, ok: bool)
    requires Emitting(state.View(), emitted0, owner, parse) && AllFinished(state.View(), items, |items|, parse)
    ensures TraceOf(emitted).Some?
    ensures ok <==> |state.items| == |items| && !(exists i :: i in state.items && !state.items[i].completed)
    ensures emitted == emitted0 + (if ok then [StepFinished(usage)] else [])
    ensures ok ==> Terminal(emitted, items, parse)
  {
    if |state.items| != |items| || exists i | i in state.items :: !state.items[i].completed {
      assert emitted0 + [] == emitted0;
      return emitted0, false;
    }
    FinishTrace(state.View(), emitted0, owner, items, usage, parse);
    emitted, ok := emitted0 + [StepFinished(usage)], true;
  }

  lemma FinishTrace(t: Tracker, events: seq<ModelEvent>, owner: map<string, nat>, output: seq<Json>, usage: Usage,
                    parse: string -> Option<Json>)
    requires Emitting(t, events, owner, parse) && |t.items| == |output|
    requires forall j: nat | j < |output| :: j in t.items && FinishedAs(t.items[j], output[j], parse)
    ensures Terminal(events + [StepFinished(usage)], output, parse)
  {
    AllIndexed(t.items, |output|);
    AllDone(t, events, owner, output, parse);
    FinishStep(events, usage);
  }

  lemma FinishStep(events: seq<ModelEvent>, usage: Usage)
    requires TraceOf(events).Some? && !TraceOf(events).value.finished && TraceOf(events).value.open == map[]
    ensures TraceOf(events + [StepFinished(usage)]) == Some(TraceOf(events).value.(finished := true))
  {
    TraceAppend(events, StepFinished(usage));
  }

  function Below(n: nat): (r: set<nat>)
    ensures |r| == n && forall i: nat :: i in r <==> i < n
  {
    if n == 0 then {} else Below(n - 1) + {n - 1}
  }

  // n keys that include 0..n are exactly those.
  lemma AllIndexed<V>(m: map<nat, V>, n: nat)
    requires |m| == n && forall i: nat | i < n :: i in m
    ensures forall i | i in m :: i < n
  {
    var extra := m.Keys - Below(n);
    assert m.Keys == Below(n) + extra;
    assert |m.Keys| == n + |extra|;
  }

  lemma AllDone(t: Tracker, events: seq<ModelEvent>, owner: map<string, nat>, output: seq<Json>,
                parse: string -> Option<Json>)
    requires Emitting(t, events, owner, parse)
    requires forall i | i in t.items :: i < |output|
    requires forall j: nat | j < |output| :: j in t.items && FinishedAs(t.items[j], output[j], parse)
    ensures TraceOf(events).value.open == map[]
    ensures AllOutput(TraceOf(events).value.done, output, parse)
  {
    var l, slots := TraceOf(events).value, SlotsOf(t.items, parse);
    forall id | id in owner
      ensures id !in l.open && id in l.done && owner[id] < |output|
              && CanonicalItem(output[owner[id]], parse) == Some(l.done[id])
    {
      assert Owned(id, slots, owner);
      assert SlotTracked(slots[owner[id]], owner[id], l, owner);
    }
    forall k | 0 <= k < |output|
      ensures OutputDone(output[k], l.done, parse)
      ensures CanonicalItem(output[k], parse).value.id in owner && owner[CanonicalItem(output[k], parse).value.id] == k
    {
      assert SlotTracked(slots[k], k, l, owner);
    }
  }

  method ParseStream(input: seq<Json>, parse: string -> Option<Json>) returns (emitted: seq<ModelEvent>, end: StreamEnd)
    ensures TraceOf(emitted).Some?
    ensures forall history :: ObserveAll(history, emitted).Some? <==> FreshTrace(history, emitted)
    ensures end.Completed? ==> Terminal(emitted, end.output, parse)
    ensures (emitted, end) == Outcome(input, parse)
  {
    emitted, end := ParseEvents(input, parse);
    forall history ensures ObserveAll(history, emitted).Some? <==> FreshTrace(history, emitted) {
      TraceObserved(history, emitted);
    }
  }

  method ParseEvents(input: seq<Json>, parse: string -> Option<Json>) returns (emitted: seq<ModelEvent>, end: StreamEnd)
    ensures TraceOf(emitted).Some?
    ensures end.Completed? ==> Terminal(emitted, end.output, parse)
    ensures (emitted, end) == Outcome(input, parse)
  {
    emitted, end := [], AdapterError;
    var state := new ResponseState();
    ghost var owner: map<string, nat> := map[];
    ghost var all := Outcome(input, parse);
    assert [] + all.0 == all.0;
    for k := 0 to |input|
      invariant Emitting(state.View(), emitted, owner, parse)
                && Continues(all, emitted, ParsedFrom(state.View(), input, k, parse))
    {
      var next: Progress;
      emitted, next, owner := ParseNext(state, input, k, parse, emitted, owner, all);
      if next.Stop? { return emitted, next.end; }
    }
    assert emitted + [] == emitted;
  }

  method ParseNext(state: ResponseState, input: seq<Json>, k: nat, parse: string -> Option<Json>,
                   before: seq<ModelEvent>, ghost owner0: map<string, nat>, ghost all: (seq<ModelEvent>, StreamEnd))
    returns (emitted: seq<ModelEvent>, next: Progress, ghost owner: map<string, nat>)
    requires k < |input| && Emitting(state.View(), before, owner0, parse)
    requires Continues(all, before, ParsedFrom(state.View(), input, k, parse))
    modifies state
    ensures next.Go? ==>
      Emitting(state.View(), emitted, owner, parse)
        && Continues(all, emitted, ParsedFrom(state.View(), input, k + 1, parse))
    ensures next.Stop? ==> TraceOf(emitted).Some? && (emitted, next.end) == all
    ensures next.Stop? && next.end.Completed? ==> Terminal(emitted, next.end.output, parse)
  {
    ParsedNext(state.View(), input, k, parse, before, all);
    emitted, next, owner := ParseEvent(state, input[k], parse, before, owner0);
  }

  datatype Progress = Go | Stop(end: StreamEnd)

  // What one event leaves: the events emitted so far, and whether the loop goes on.
  predicate Left(before: Tracker, emitted0: seq<ModelEvent>, event: Json, parse: string -> Option<Json>, t: Tracker,
                 emitted: seq<ModelEvent>, next: Progress)
  {
    match Handle(before, event, parse)
    case Goes(u, more) => next == Go && t == u && emitted == emitted0 + more
    case Ends(end) => next == Stop(end) && emitted == emitted0
    case Completes(response) =>
      var (more, output) := Complete(before, response, parse);
      next == Stop(EndOf(output)) && emitted == emitted0 + more
  }

  lemma ParsedNext(t: Tracker, input: seq<Json>, k: nat, parse: string -> Option<Json>, before: seq<ModelEvent>,
                   all: (seq<ModelEvent>, StreamEnd))
    requires k < |input| && Continues(all, before, ParsedFrom(t, input, k, parse))
    ensures forall u, emitted, next | Left(t, before, input[k], parse, u, emitted, next) ::
              if next.Go? then Continues(all, emitted, ParsedFrom(u, input, k + 1, parse))
                else all == (emitted, next.end)
  {
    match Handle(t, input[k], parse)
    case Goes(u, more) => ContinuesOn(all, before, more, ParsedFrom(u, input, k + 1, parse));
    case Ends(_) => assert before + [] == before;
    case Completes(_) =>
  }

  // One event of the stream.
  method ParseEvent(state: ResponseState, event: Json, parse: string -> Option<Json>, emitted0: seq<ModelEvent>,
                    ghost owner0: map<string, nat>)
    returns (emitted: seq<ModelEvent>, next: Progress, ghost owner: map<string, nat>)
    requires Emitting(state.View(), emitted0, owner0, parse)
    modifies state
    ensures TraceOf(emitted).Some?
    ensures next.Go? ==> Emitting(state.View(), emitted, owner, parse)
    ensures next.Stop? && next.end.Completed? ==> Terminal(emitted, next.end.output, parse)
    ensures Left(old(state.View()), emitted0, event, parse, state.View(), emitted, next)
  {
    emitted, next, owner := emitted0, Stop(AdapterError), owner0;
    var kind := Str(event, "type");
    if kind.None? { return; }
    if kind.value in IGNORED_EVENTS {
      assert emitted + [] == emitted;
      next := Go;
    } else if kind.value == "response.output_item.added" || kind.value == "response.output_item.done" {
      var index := AsIndex(At(event, "output_index"));
      if index.None? { return; }
      emitted, next, owner := ParseItem(state, index.value, At(event, "item"),
        kind.value == "response.output_item.done", parse, emitted, owner);
    } else if kind.value in DELTA_EVENTS {
      emitted, next := ParseDelta(state, event, kind.value, parse, emitted, owner);
    } else if kind.value in PART_EVENTS {
      if ItemMut(state.View(), event).None? { return; }
      assert emitted + [] == emitted;
      next := Go;
    } else if kind.value == "response.completed" {
      var output: Option<seq<Json>>;
      emitted, output := HandleCompleted(state, At(event, "response"), parse, emitted, owner);
      next := Stop(EndOf(output));
    } else if kind.value in {"error", "response.failed", "response.incomplete"} {
      next := Stop(ProviderFailure);
    }
  }

  method ParseItem(state: ResponseState, index: nat, v: Json, done: bool, parse: string -> Option<Json>,
                   emitted0: seq<ModelEvent>, ghost owner0: map<string, nat>)
    returns (emitted: seq<ModelEvent>, next: Progress, ghost owner: map<string, nat>)
    requires Emitting(state.View(), emitted0, owner0, parse)
    modifies state
    ensures TraceOf(emitted).Some?
    ensures next.Go? ==> Emitting(state.View(), emitted, owner, parse)
    ensures match (if done then FinishItem(old(state.View()), index, v, parse)
              else StartItem(old(state.View()), index, v))
            case Some((t, more)) => next == Go && state.View() == t && emitted == emitted0 + more
            case None => next == Stop(AdapterError) && emitted == emitted0
  {
    emitted, next, owner := emitted0, Stop(AdapterError), owner0;
    ghost var before := state.View();
    var more: Option<seq<ModelEvent>>;
    if done {
      more := state.Finish(index, v, parse);
      if more.None? { return; }
      owner := FinishEmits(before, emitted, owner, index, v, parse);
    } else {
      more := state.Start(index, v);
      if more.None? { return; }
      owner := StartEmits(before, emitted, owner, index, v, parse);
    }
    emitted, next := emitted + more.value, Go;
  }

  method ParseDelta(state: ResponseState, event: Json, kind: string, parse: string -> Option<Json>,
                    emitted0: seq<ModelEvent>, ghost owner: map<string, nat>)
    returns (emitted: seq<ModelEvent>, next: Progress)
    requires Emitting(state.View(), emitted0, owner, parse) && kind in DELTA_EVENTS
    ensures TraceOf(emitted).Some?
    ensures next.Go? ==> Emitting(state.View(), emitted, owner, parse)
    ensures match HandleDelta(state.View(), event, kind)
            case Goes(t, more) => next == Go && state.View() == t && emitted == emitted0 + more
            case _ => next == Stop(AdapterError) && emitted == emitted0
  {
    emitted, next := emitted0, Stop(AdapterError);
    var index := ItemMut(state.View(), event);
    var delta := Str(event, "delta");
    if index.None? || delta.None? { return; }
    var e := DeltaEvent(kind, state.items[index.value].value, delta.value);
    if e.None? { return; }
    DeltaEmits(state.View(), emitted, owner, index.value, kind, delta.value, parse);
    emitted, next := emitted + [e.value], Go;
  }
}
