// The text that a model step streams without completing an item, read off its events.
module StreamedText {
  import opened Basics
  import opened Conversation
  import opened ModelStep
  import opened EngineRuns

  predicate StartsMessage(e: ModelEvent, id: string) {
    e.ItemStarted? && e.itemId == id && e.itemType == "assistant_message"
  }

  // The event after the last one that starts a message; 0 if none does.
  function AfterStart(events: seq<ModelEvent>, id: string): (n: nat)
    ensures n <= |events| && (n > 0 ==> StartsMessage(events[n - 1], id))
    ensures forall k | n <= k < |events| :: !StartsMessage(events[k], id)
  {
    if events == [] then 0
    else if StartsMessage(events[|events| - 1], id) then |events|
    else AfterStart(events[..|events| - 1], id)
  }

  // The text deltas of an item, one after the other.
  function DeltaText(events: seq<ModelEvent>, id: string): string {
    FlatMap(events, (e: ModelEvent) => DeltaOf(e, id))
  }

  function DeltaOf(e: ModelEvent, id: string): string {
    if e.TextDelta? && e.itemId == id then e.delta else ""
  }

  // Deltas add up in the order of their events.
  lemma DeltasJoin(a: seq<ModelEvent>, b: seq<ModelEvent>, e: ModelEvent, id: string)
    ensures DeltaText([], id) == "" && DeltaText(a + b, id) == DeltaText(a, id) + DeltaText(b, id)
    ensures DeltaText([e], id) == if e.TextDelta? && e.itemId == id then e.delta else ""
  {
    FlatMapOne(e, (x: ModelEvent) => DeltaOf(x, id));
    FlatMapJoins(a, b, (x: ModelEvent) => DeltaOf(x, id));
  }

  // What has been streamed of a message since it was last started.
  function StreamedSince(events: seq<ModelEvent>, id: string): string {
    DeltaText(events[AfterStart(events, id)..], id)
  }

  // The phase its start gave it.
  function PhaseSince(events: seq<ModelEvent>, id: string): Phase {
    var n := AfterStart(events, id);
    if n > 0 && events[n - 1].phase.Some? then events[n - 1].phase.value else FinalAnswer
  }

  // The texts that the step keeps in a table are what has been streamed.
  lemma {:induction false} TableIsStreamed(events: seq<ModelEvent>, id: string)
    ensures id in TextsOf(events) ==> TextsOf(events)[id] == (StreamedSince(events, id), PhaseSince(events, id))
    ensures id !in TextsOf(events) ==> StreamedSince(events, id) == "" && PhaseSince(events, id) == FinalAnswer
  {
    if events != [] {
      var init, e := events[..|events| - 1], events[|events| - 1];
      TableIsStreamed(init, id);
      NextStreamed(init, e, id);
      assert events == init + [e];
      assert StreamedSince(init, id) + "" == StreamedSince(init, id) && "" + DeltaOf(e, id) == DeltaOf(e, id);
      assert TextsOf(events) == TextsAfter(TextsOf(init), e);
    }
  }

  predicate Mentions(e: ModelEvent, id: string) {
    StartsMessage(e, id) || (e.TextDelta? && e.itemId == id)
  }

  // It keeps one for every message that an event has started or streamed.
  lemma {:induction false} TableMentions(events: seq<ModelEvent>, id: string)
    ensures id in TextsOf(events) <==> exists k :: 0 <= k < |events| && Mentions(events[k], id)
  {
    if events != [] {
      var init, last := events[..|events| - 1], |events| - 1;
      TableMentions(init, id);
      assert id in TextsOf(events) <==> id in TextsOf(init) || Mentions(events[last], id);
      assert forall k | 0 <= k < last :: init[k] == events[k];
    }
  }

  lemma NextStreamed(init: seq<ModelEvent>, e: ModelEvent, id: string)
    ensures var events := init + [e];
            if StartsMessage(e, id) then
              && StreamedSince(events, id) == ""
              && PhaseSince(events, id) == (if e.phase.Some? then e.phase.value else FinalAnswer)
            else
              && StreamedSince(events, id) == StreamedSince(init, id) + DeltaOf(e, id)
              && PhaseSince(events, id) == PhaseSince(init, id)
  {
    var events, n := init + [e], AfterStart(init, id);
    assert events[..|init|] == init;
    if StartsMessage(e, id) {
      assert events[|events|..] == [];
    } else {
      assert AfterStart(events, id) == n && events[n..] == init[n..] + [e];
      DeltasJoin(init[n..], [e], e, id);
    }
  }

  // The message made of a text that was streamed and never completed.
  function LeftOver(events: seq<ModelEvent>, id: string): seq<Item> {
    var text := StreamedSince(events, id);
    if text == "" then [] else [AssistantMessage(id, [Text(text)], PhaseSince(events, id))]
  }

  // A step that ends well without completing an item appends exactly these messages.
  lemma FallbackIsStreamed(history: seq<Item>, step: nat, env: Environment)
    requires Streamed(history, step, env).1.None? && CompletedItems(env.stream(step)) == []
    ensures var events := env.stream(step);
            Streamed(history, step, env).0 ==
              FlatMap(env.order(step, TextsOf(events)), (id: string) => LeftOver(events, id))
  {
    var events := env.stream(step);
    var texts := TextsOf(events);
    StreamedIsOutput(history, step, env);
    AllLeftOver(env.order(step, texts), events);
  }

  lemma {:induction false} AllLeftOver(ids: seq<string>, events: seq<ModelEvent>)
    ensures FallbackItems(ids, TextsOf(events)) == FlatMap(ids, (id: string) => LeftOver(events, id))
  {
    if ids != [] {
      AllLeftOver(ids[..|ids| - 1], events);
      TableIsStreamed(events, ids[|ids| - 1]);
    }
  }
}
