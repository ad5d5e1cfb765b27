// A reading of the Responses stream without a tracker: whether an event is in order, and what it says,
// is decided by the events before it. The parser is proved to read every stream this way.
module ResponsesReading {
  import opened Basics
  import opened CanonicalJson
  import opened Conversation
  import opened ModelStep
  import opened Responses

  // ---- What an event says of an item ----

  datatype Act =
    | Added(index: nat, item: Json)
    | Finished(index: nat, item: Json)
    | Delta(kind: string, index: nat, itemId: string, text: string)
    | Part(index: nat, itemId: string)
    | Noise

  function ActOf(event: Json): Option<Act> {
    match (Str(event, "type"), AsIndex(At(event, "output_index")))
    case (None, _) => None
    case (Some(kind), index) =>
      if kind in IGNORED_EVENTS then Some(Noise)
      else if index.None? then None
      else if kind == "response.output_item.added" then Some(Added(index.value, At(event, "item")))
      else if kind == "response.output_item.done" then Some(Finished(index.value, At(event, "item")))
      else if Str(event, "item_id").None? then None
      else if kind in PART_EVENTS then Some(Part(index.value, Str(event, "item_id").value))
      else if kind in DELTA_EVENTS && Str(event, "delta").Some? then
        Some(Delta(kind, index.value, Str(event, "item_id").value, Str(event, "delta").value))
      else None
  }

  predicate Presents(a: Act, i: nat) {
    (a.Added? || a.Finished?) && a.index == i
  }

  // The item an output index was first given, and the item it was first finished with.
  function FirstItem(acts: seq<Act>, i: nat): Option<Json> {
    if acts == [] then None
    else
      var a := acts[|acts| - 1];
      match FirstItem(acts[..|acts| - 1], i)
      case Some(v) => Some(v)
      case None => if Presents(a, i) then Some(a.item) else None
  }

  function DoneItem(acts: seq<Act>, i: nat): Option<Json> {
    if acts == [] then None
    else
      var a := acts[|acts| - 1];
      match DoneItem(acts[..|acts| - 1], i)
      case Some(v) => Some(v)
      case None => if a.Finished? && a.index == i then Some(a.item) else None
  }

  predicate UsedId(acts: seq<Act>, id: string) {
    acts != [] && (
      var a := acts[|acts| - 1];
      UsedId(acts[..|acts| - 1], id) || ((a.Added? || a.Finished?) && Str(a.item, "id") == Some(id)))
  }

  // ---- When an act is in order, and what it says ----

  // An index gets its item once, under an id of its own.
  predicate Opens(acts: seq<Act>, i: nat, v: Json) {
    && FirstItem(acts, i).None? && Str(v, "id").Some? && !UsedId(acts, Str(v, "id").value)
    && (Str(v, "type") == Some("reasoning") || Str(v, "type") == Some("function_call")
        || (Str(v, "type") == Some("message") && PhaseOf(v).Some?))
  }

  predicate SameItem(acts: seq<Act>, i: nat, v: Json) {
    FirstItem(acts, i).Some? && At(FirstItem(acts, i).value, "id") == At(v, "id")
  }

  function Starts(acts: seq<Act>, i: nat, v: Json): seq<ModelEvent>
    requires Str(v, "id").Some?
  {
    if FirstItem(acts, i).Some? then []
    else if Str(v, "type") == Some("message") then [ItemStarted(Str(v, "id").value, "assistant_message", PhaseOf(v))]
    else if Str(v, "type") == Some("reasoning") then [ItemStarted(Str(v, "id").value, "reasoning", Some(Commentary))]
    else [ItemStarted(Str(v, "id").value, "tool_call", None)]
  }

  // An open item: it has been given and not finished, under this id.
  predicate IsOpen(acts: seq<Act>, i: nat, id: string) {
    FirstItem(acts, i).Some? && DoneItem(acts, i).None? && Str(FirstItem(acts, i).value, "id") == Some(id)
  }

  // A delta is of the kind of its item; one of a call's arguments names the call.
  function DeltaSays(v: Json, kind: string, id: string, text: string): seq<ModelEvent> {
    if kind == "response.output_text.delta" && Str(v, "type") == Some("message") then [TextDelta(id, text)]
    else if kind == "response.reasoning_summary_text.delta" && Str(v, "type") == Some("reasoning") then
      [ReasoningDelta(id, text)]
    else if kind == "response.function_call_arguments.delta" && Str(v, "type") == Some("function_call")
            && Str(v, "call_id").Some? then
      [ToolCallDelta(id, Str(v, "call_id").value, text)]
    else []
  }

  predicate InOrder(acts: seq<Act>, a: Act, parse: string -> Option<Json>) {
    match a
    case Added(i, v) => Opens(acts, i, v) || SameItem(acts, i, v)
    case Finished(i, v) =>
      && (Opens(acts, i, v) || SameItem(acts, i, v)) && CanonicalItem(v, parse).Some?
      && (DoneItem(acts, i).Some? ==> CanonicalItem(DoneItem(acts, i).value, parse) == CanonicalItem(v, parse))
    case Delta(kind, i, id, text) => IsOpen(acts, i, id) && DeltaSays(FirstItem(acts, i).value, kind, id, text) != []
    case Part(i, id) => IsOpen(acts, i, id)
    case Noise => true
  }

  function Says(acts: seq<Act>, a: Act, parse: string -> Option<Json>): seq<ModelEvent> {
    match a
    case Added(i, v) => if Str(v, "id").Some? then Starts(acts, i, v) else []
    case Finished(i, v) =>
      (if Str(v, "id").Some? then Starts(acts, i, v) else [])
      + (if DoneItem(acts, i).Some? || CanonicalItem(v, parse).None? then []
         else [ItemCompleted(CanonicalItem(v, parse).value)])
    case Delta(kind, i, id, text) =>
      if FirstItem(acts, i).Some? then DeltaSays(FirstItem(acts, i).value, kind, id, text) else []
    case _ => []
  }

  function AllSaid(acts: seq<Act>, parse: string -> Option<Json>): seq<ModelEvent> {
    if acts == [] then []
    else
      var init := acts[..|acts| - 1];
      AllSaid(init, parse) + Says(init, acts[|acts| - 1], parse)
  }

  // ---- The tracker holds what the acts before have said ----

  predicate HoldsAt(acts: seq<Act>, t: Tracker, i: nat) {
    && (i in t.items <==> FirstItem(acts, i).Some?)
    && (DoneItem(acts, i).Some? ==> i in t.items)
    && (i in t.items ==>
          && t.items[i] == (if DoneItem(acts, i).Some? then ItemState(DoneItem(acts, i).value, true)
                            else ItemState(FirstItem(acts, i).value, false))
          && Str(FirstItem(acts, i).value, "id").Some? && UsedId(acts, Str(FirstItem(acts, i).value, "id").value)
          && At(t.items[i].value, "id") == At(FirstItem(acts, i).value, "id"))
  }

  ghost predicate Holds(acts: seq<Act>, t: Tracker) {
    && (forall i: nat :: HoldsAt(acts, t, i))
    && (forall id :: id in t.ids <==> UsedId(acts, id))
  }

  lemma Next(acts: seq<Act>, a: Act)
    ensures (acts + [a])[..|acts|] == acts
    ensures forall i: nat :: FirstItem(acts + [a], i) ==
              if FirstItem(acts, i).Some? then FirstItem(acts, i) else if Presents(a, i) then Some(a.item) else None
    ensures forall i: nat :: DoneItem(acts + [a], i) ==
              if DoneItem(acts, i).Some? then DoneItem(acts, i)
              else if a.Finished? && a.index == i then Some(a.item) else None
    ensures forall id :: UsedId(acts + [a], id) <==>
              UsedId(acts, id) || ((a.Added? || a.Finished?) && Str(a.item, "id") == Some(id))
  {
    assert (acts + [a])[..|acts|] == acts;
  }

  lemma StartReads(acts: seq<Act>, t: Tracker, i: nat, v: Json)
    requires Holds(acts, t)
    ensures StartItem(t, i, v).Some? <==> Opens(acts, i, v) || SameItem(acts, i, v)
    ensures StartItem(t, i, v).Some? ==> Str(v, "id").Some? && StartItem(t, i, v).value.1 == Starts(acts, i, v)
    ensures StartItem(t, i, v).Some? ==> Holds(acts + [Added(i, v)], StartItem(t, i, v).value.0)
  {
    Next(acts, Added(i, v));
    assert HoldsAt(acts, t, i);
    if StartItem(t, i, v).Some? {
      var s := StartItem(t, i, v).value.0;
      forall j: nat ensures HoldsAt(acts + [Added(i, v)], s, j) { assert HoldsAt(acts, t, j); }
    }
  }

  lemma FinishReads(acts: seq<Act>, t: Tracker, i: nat, v: Json, parse: string -> Option<Json>)
    requires Holds(acts, t)
    ensures FinishItem(t, i, v, parse).Some? <==> InOrder(acts, Finished(i, v), parse)
    ensures FinishItem(t, i, v, parse).Some? ==>
              && FinishItem(t, i, v, parse).value.1 == Says(acts, Finished(i, v), parse)
              && Holds(acts + [Finished(i, v)], FinishItem(t, i, v, parse).value.0)
  {
    StartReads(acts, t, i, v);
    Next(acts, Added(i, v));
    Next(acts, Finished(i, v));
    if StartItem(t, i, v).Some? {
      var s := StartItem(t, i, v).value.0;
      assert HoldsAt(acts + [Added(i, v)], s, i);
      if FinishItem(t, i, v, parse).Some? {
        var u := FinishItem(t, i, v, parse).value.0;
        forall j: nat ensures HoldsAt(acts + [Finished(i, v)], u, j) { assert HoldsAt(acts + [Added(i, v)], s, j); }
      }
    }
  }

  lemma DeltaReads(acts: seq<Act>, t: Tracker, event: Json, kind: string, parse: string -> Option<Json>)
    requires Holds(acts, t) && Str(event, "type") == Some(kind) && kind in DELTA_EVENTS
    ensures match ActOf(event)
            case Some(a) =>
              a.Delta? && HandleDelta(t, event, kind) ==
                if InOrder(acts, a, parse) then Goes(t, Says(acts, a, parse)) else Ends(AdapterError)
            case None => HandleDelta(t, event, kind) == Ends(AdapterError)
  {
    var index := AsIndex(At(event, "output_index"));
    if index.Some? { assert HoldsAt(acts, t, index.value); }
  }

  lemma PartReads(acts: seq<Act>, t: Tracker, event: Json, kind: string, parse: string -> Option<Json>)
    requires Holds(acts, t) && Str(event, "type") == Some(kind) && kind in PART_EVENTS
    ensures ItemMut(t, event).Some? <==> ActOf(event).Some? && InOrder(acts, ActOf(event).value, parse)
    ensures ActOf(event).Some? ==> ActOf(event).value.Part?
  {
    var index := AsIndex(At(event, "output_index"));
    if index.Some? { assert HoldsAt(acts, t, index.value); }
  }

  lemma QuietAct(acts: seq<Act>, t: Tracker, a: Act)
    requires Holds(acts, t) && !a.Added? && !a.Finished?
    ensures Holds(acts + [a], t)
  {
    Next(acts, a);
    forall j: nat ensures HoldsAt(acts + [a], t, j) { assert HoldsAt(acts, t, j); }
  }

  // What ends a stream: the failures a provider reports, the completed response, and anything out of order.
  function StopOf(event: Json): Handled {
    if Str(event, "type") == Some("response.completed") then Completes(At(event, "response"))
    else if Str(event, "type") == Some("error") || Str(event, "type") == Some("response.failed")
            || Str(event, "type") == Some("response.incomplete") then
      Ends(ProviderFailure)
    else Ends(AdapterError)
  }

  // An event goes on exactly when it is in order, with what it says; anything else ends the stream.
  ghost predicate GoesOn(acts: seq<Act>, event: Json, h: Handled, parse: string -> Option<Json>) {
    if ActOf(event).Some? && InOrder(acts, ActOf(event).value, parse) then
      var a := ActOf(event).value;
      h.Goes? && h.more == Says(acts, a, parse) && Holds(acts + [a], h.tracker)
    else h == StopOf(event)
  }

  lemma ItemReads(acts: seq<Act>, t: Tracker, event: Json, kind: string, parse: string -> Option<Json>)
    requires Holds(acts, t) && Str(event, "type") == Some(kind)
    requires kind == "response.output_item.added" || kind == "response.output_item.done"
    ensures GoesOn(acts, event, Handle(t, event, parse), parse)
  {
    var index := AsIndex(At(event, "output_index"));
    if index.Some? {
      StartReads(acts, t, index.value, At(event, "item"));
      FinishReads(acts, t, index.value, At(event, "item"), parse);
    }
  }

  lemma HandleReads(acts: seq<Act>, t: Tracker, event: Json, parse: string -> Option<Json>)
    requires Holds(acts, t)
    ensures GoesOn(acts, event, Handle(t, event, parse), parse)
  {
    match Str(event, "type")
    case None =>
    case Some(kind) =>
      if kind == "response.output_item.added" || kind == "response.output_item.done" {
        ItemReads(acts, t, event, kind, parse);
      } else if kind in DELTA_EVENTS {
        DeltaReads(acts, t, event, kind, parse);
        QuietReads(acts, t, event);
      } else if kind in PART_EVENTS {
        PartReads(acts, t, event, kind, parse);
        QuietReads(acts, t, event);
      } else {
        QuietReads(acts, t, event);
      }
  }

  lemma QuietReads(acts: seq<Act>, t: Tracker, event: Json)
    requires Holds(acts, t)
    ensures ActOf(event).Some? && !ActOf(event).value.Added? && !ActOf(event).value.Finished? ==>
              Holds(acts + [ActOf(event).value], t)
  {
    if ActOf(event).Some? && !ActOf(event).value.Added? && !ActOf(event).value.Finished? {
      QuietAct(acts, t, ActOf(event).value);
    }
  }

  // ---- The whole stream ----

  // The events that are in order, up to the first that is not.
  function Read(input: seq<Json>, k: nat, acts: seq<Act>, parse: string -> Option<Json>): (r: (nat, seq<Act>))
    requires k <= |input|
    ensures k <= r.0 <= |input| && acts <= r.1 && |r.1| - |acts| == r.0 - k
    decreases |input| - k
  {
    if k < |input| && ActOf(input[k]).Some? && InOrder(acts, ActOf(input[k]).value, parse) then
      Read(input, k + 1, acts + [ActOf(input[k]).value], parse)
    else (k, acts)
  }

  // The items of the completed response finish the items of the stream, in order.
  function ReadOutput(items: seq<Json>, k: nat, acts: seq<Act>, parse: string -> Option<Json>): (r: (nat, seq<Act>))
    requires k <= |items|
    ensures k <= r.0 <= |items| && acts <= r.1 && |r.1| - |acts| == r.0 - k
    decreases |items| - k
  {
    if k < |items| && InOrder(acts, Finished(k, items[k]), parse) then
      ReadOutput(items, k + 1, acts + [Finished(k, items[k])], parse)
    else (k, acts)
  }

  // Every item of the stream is finished and one of the response's.
  ghost predicate NothingMissing(acts: seq<Act>, count: nat) {
    forall i: nat :: FirstItem(acts, i).Some? ==> i < count && DoneItem(acts, i).Some?
  }

  ghost predicate ReadsEnd(acts: seq<Act>, response: Json, emitted: seq<ModelEvent>, end: StreamEnd,
                           parse: string -> Option<Json>)
  {
    if Str(response, "status") != Some("completed") || !At(response, "output").Array? then
      emitted == AllSaid(acts, parse) && end == AdapterError
    else
      var items := At(response, "output").elements;
      var (n, all) := ReadOutput(items, 0, acts, parse);
      if n == |items| && NothingMissing(all, n) then
        emitted == AllSaid(all, parse) + [StepFinished(UsageOf(At(response, "usage")))] && end == Completed(items)
      else
        emitted == AllSaid(all, parse) && end == AdapterError
  }

  ghost predicate Reads(input: seq<Json>, k: nat, acts: seq<Act>, emitted: seq<ModelEvent>, end: StreamEnd,
                        parse: string -> Option<Json>)
    requires k <= |input|
  {
    var (n, all) := Read(input, k, acts, parse);
    if n == |input| then emitted == AllSaid(all, parse) && end == AdapterError
    else
      match StopOf(input[n])
      case Completes(response) => ReadsEnd(all, response, emitted, end, parse)
      case Ends(e) => emitted == AllSaid(all, parse) && end == e
      case Goes(_, _) => false
  }

  lemma SaidNext(acts: seq<Act>, a: Act, parse: string -> Option<Json>)
    ensures AllSaid(acts + [a], parse) == AllSaid(acts, parse) + Says(acts, a, parse)
  {
    assert (acts + [a])[..|acts|] == acts;
  }

  // What the rest of the output emits, and whether it was in order to the end.
  ghost predicate OutputSaid(acts: seq<Act>, rest: (nat, seq<Act>), count: nat, out: (seq<ModelEvent>, Option<Tracker>),
                             parse: string -> Option<Json>)
  {
    && AllSaid(acts, parse) + out.0 == AllSaid(rest.1, parse)
    && (out.1.Some? <==> rest.0 == count) && (out.1.Some? ==> Holds(rest.1, out.1.value))
  }

  lemma GoesInFront(was: seq<ModelEvent>, more: seq<ModelEvent>, now: seq<ModelEvent>, rest: seq<ModelEvent>,
                    all: seq<ModelEvent>)
    requires now == was + more && now + rest == all
    ensures was + (more + rest) == all
  {
  }

  lemma {:induction false} OutputReads(acts: seq<Act>, t: Tracker, items: seq<Json>, k: nat,
                                       parse: string -> Option<Json>)
    requires Holds(acts, t) && k <= |items|
    ensures OutputSaid(acts, ReadOutput(items, k, acts, parse), |items|, FinishFrom(t, items, k, parse), parse)
    decreases |items| - k
  {
    assert AllSaid(acts, parse) + [] == AllSaid(acts, parse);
    if k < |items| {
      var a := Finished(k, items[k]);
      FinishReads(acts, t, k, items[k], parse);
      if InOrder(acts, a, parse) {
        var (u, more) := FinishItem(t, k, items[k], parse).value;
        OutputReads(acts + [a], u, items, k + 1, parse);
        SaidNext(acts, a, parse);
        GoesInFront(AllSaid(acts, parse), more, AllSaid(acts + [a], parse), FinishFrom(u, items, k + 1, parse).0,
                    AllSaid(ReadOutput(items, k + 1, acts + [a], parse).1, parse));
      }
    }
  }

  // Exactly when nothing is missing has the tracker as many items as the response, all of them completed.
  lemma MissingNothing(acts: seq<Act>, t: Tracker, items: seq<Json>)
    requires Holds(acts, t) && forall k | 0 <= k < |items| :: FirstItem(acts, k).Some?
    ensures NothingMissing(acts, |items|) <==>
              |t.items| == |items| && !exists i :: i in t.items && !t.items[i].completed
  {
    forall i: nat ensures HoldsAt(acts, t, i) {}
    assert forall k: nat | k < |items| :: k in t.items by {
      forall k: nat | k < |items| ensures k in t.items { assert HoldsAt(acts, t, k); }
    }
    if NothingMissing(acts, |items|) {
      forall i | i in t.items ensures i < |items| && t.items[i].completed { assert HoldsAt(acts, t, i); }
      assert t.items.Keys == Below(|items|);
    } else {
      var i: nat :| FirstItem(acts, i).Some? && !(i < |items| && DoneItem(acts, i).Some?);
      assert HoldsAt(acts, t, i);
      if |t.items| == |items| { AllIndexed(t.items, |items|); }
    }
  }

  lemma ReadOutputPresents(items: seq<Json>, k: nat, acts: seq<Act>, parse: string -> Option<Json>)
    requires k <= |items| && forall i | 0 <= i < k :: FirstItem(acts, i).Some?
    ensures var (n, all) := ReadOutput(items, k, acts, parse); forall i | 0 <= i < n :: FirstItem(all, i).Some?
    decreases |items| - k
  {
    if k < |items| && InOrder(acts, Finished(k, items[k]), parse) {
      Next(acts, Finished(k, items[k]));
      ReadOutputPresents(items, k + 1, acts + [Finished(k, items[k])], parse);
    }
  }

  lemma OutputEnds(acts: seq<Act>, t: Tracker, items: seq<Json>, last: ModelEvent, parse: string -> Option<Json>)
    requires Holds(acts, t)
    ensures var (n, all) := ReadOutput(items, 0, acts, parse);
            var (es, end) := FinishFrom(t, items, 0, parse);
            && AllSaid(acts, parse) + es == AllSaid(all, parse)
            && AllSaid(acts, parse) + (es + [last]) == AllSaid(all, parse) + [last]
            && (n == |items| && NothingMissing(all, n) <==>
                  end.Some? && |end.value.items| == |items|
                  && !exists i :: i in end.value.items && !end.value.items[i].completed)
  {
    var (n, all) := ReadOutput(items, 0, acts, parse);
    var (es, end) := FinishFrom(t, items, 0, parse);
    OutputReads(acts, t, items, 0, parse);
    ReadOutputPresents(items, 0, acts, parse);
    GoesInFront(AllSaid(acts, parse), es, AllSaid(all, parse), [last], AllSaid(all, parse) + [last]);
    if end.Some? { MissingNothing(all, end.value, items); }
  }

  lemma EndReads(acts: seq<Act>, t: Tracker, response: Json, parse: string -> Option<Json>)
    requires Holds(acts, t)
    ensures var (more, output) := Complete(t, response, parse);
            ReadsEnd(acts, response, AllSaid(acts, parse) + more, EndOf(output), parse)
  {
    assert AllSaid(acts, parse) + [] == AllSaid(acts, parse);
    if Str(response, "status") == Some("completed") && At(response, "output").Array? {
      OutputEnds(acts, t, At(response, "output").elements, StepFinished(UsageOf(At(response, "usage"))), parse);
    }
  }

  lemma {:induction false} StreamReads(acts: seq<Act>, t: Tracker, input: seq<Json>, k: nat,
                                       parse: string -> Option<Json>)
    requires Holds(acts, t) && k <= |input|
    ensures var (more, end) := ParsedFrom(t, input, k, parse);
            Reads(input, k, acts, AllSaid(acts, parse) + more, end, parse)
    decreases |input| - k
  {
    assert AllSaid(acts, parse) + [] == AllSaid(acts, parse);
    if k < |input| {
      HandleReads(acts, t, input[k], parse);
      match Handle(t, input[k], parse)
      case Goes(u, more) =>
        var a := ActOf(input[k]).value;
        StreamReads(acts + [a], u, input, k + 1, parse);
        SaidNext(acts, a, parse);
        var rest := ParsedFrom(u, input, k + 1, parse).0;
        GoesInFront(AllSaid(acts, parse), more, AllSaid(acts + [a], parse), rest, AllSaid(acts + [a], parse) + rest);
      case Completes(response) => EndReads(acts, t, response, parse);
      case Ends(_) =>
    }
  }

  // The parser reads every stream this way: it takes the events that are in order, emits what each of them
  // says, and ends where one is not, or at the response that completes the stream and misses nothing.
  lemma ParseReads(input: seq<Json>, parse: string -> Option<Json>)
    ensures var (emitted, end) := Outcome(input, parse); Reads(input, 0, [], emitted, end, parse)
  {
    forall i: nat ensures HoldsAt([], Tracker(map[], {}), i) {}
    StreamReads([], Tracker(map[], {}), input, 0, parse);
    var emitted := Outcome(input, parse).0;
    assert AllSaid([], parse) + emitted == emitted;
  }
}
