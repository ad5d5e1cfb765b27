// What becomes of the deltas of a Responses stream.
module ResponsesDeltas {
  import opened Basics
  import opened CanonicalJson
  import opened ModelStep
  import opened Responses
  import opened ResponsesReading

  // The deltas emitted for an item.
  function DeltasFor(events: seq<ModelEvent>, id: string): seq<string> {
    FlatMap(events, (e: ModelEvent) => DeltaFor(e, id))
  }

  function DeltaFor(e: ModelEvent, id: string): seq<string> {
    if (e.TextDelta? || e.ReasoningDelta? || e.ToolCallDelta?) && e.itemId == id then [e.delta] else []
  }

  // The delta strings of the provider's delta events that name an item.
  function ProviderDeltas(input: seq<Json>, id: string): seq<string> {
    FlatMap(input, (event: Json) => ProviderDelta(event, id))
  }

  function ProviderDelta(event: Json, id: string): seq<string> {
    if Str(event, "type").Some? && Str(event, "type").value in DELTA_EVENTS && Str(event, "item_id") == Some(id)
       && Str(event, "delta").Some? then
      [Str(event, "delta").value]
    else []
  }

  lemma SaysDelta(acts: seq<Act>, a: Act, id: string, parse: string -> Option<Json>)
    requires InOrder(acts, a, parse)
    ensures DeltasFor(Says(acts, a, parse), id) == if a.Delta? && a.itemId == id then [a.text] else []
  {
    var says := Says(acts, a, parse);
    if a.Delta? {
      FlatMapOne(says[0], (e: ModelEvent) => DeltaFor(e, id));
      assert says == [says[0]];
    } else {
      assert forall e | e in says :: DeltaFor(e, id) == [];
      FlatMapNothing(says, (e: ModelEvent) => DeltaFor(e, id));
    }
  }

  lemma DeltasNext(acts: seq<Act>, a: Act, id: string, parse: string -> Option<Json>)
    requires InOrder(acts, a, parse)
    ensures DeltasFor(AllSaid(acts + [a], parse), id) ==
            DeltasFor(AllSaid(acts, parse), id) + (if a.Delta? && a.itemId == id then [a.text] else [])
  {
    SaidNext(acts, a, parse);
    SaysDelta(acts, a, id, parse);
    FlatMapJoins(AllSaid(acts, parse), Says(acts, a, parse), (e: ModelEvent) => DeltaFor(e, id));
  }

  lemma ProviderDeltaIs(event: Json, id: string)
    requires ActOf(event).Some?
    ensures ProviderDelta(event, id) ==
            if ActOf(event).value.Delta? && ActOf(event).value.itemId == id then [ActOf(event).value.text] else []
  {
  }

  lemma {:induction false} ReadDeltas(input: seq<Json>, k: nat, acts: seq<Act>, id: string,
                                      parse: string -> Option<Json>)
    requires k <= |input|
    ensures var (n, all) := Read(input, k, acts, parse);
            DeltasFor(AllSaid(all, parse), id) == DeltasFor(AllSaid(acts, parse), id) + ProviderDeltas(input[k..n], id)
    decreases |input| - k
  {
    var n := Read(input, k, acts, parse).0;
    if k < |input| && ActOf(input[k]).Some? && InOrder(acts, ActOf(input[k]).value, parse) {
      var a := ActOf(input[k]).value;
      ReadDeltas(input, k + 1, acts + [a], id, parse);
      DeltasNext(acts, a, id, parse);
      ProviderDeltaIs(input[k], id);
      FlatMapFirst(input, k, n, (event: Json) => ProviderDelta(event, id));
      InFront(DeltasFor(AllSaid(acts, parse), id), ProviderDelta(input[k], id), ProviderDeltas(input[k + 1..n], id));
    } else {
      assert input[k..n] == [];
    }
  }

  lemma InFront(a: seq<string>, b: seq<string>, c: seq<string>)
    ensures a + b + c == a + (b + c)
  {
  }

  lemma {:induction false} OutputDeltas(items: seq<Json>, k: nat, acts: seq<Act>, id: string,
                                        parse: string -> Option<Json>)
    requires k <= |items|
    ensures DeltasFor(AllSaid(ReadOutput(items, k, acts, parse).1, parse), id) == DeltasFor(AllSaid(acts, parse), id)
    decreases |items| - k
  {
    if k < |items| && InOrder(acts, Finished(k, items[k]), parse) {
      OutputDeltas(items, k + 1, acts + [Finished(k, items[k])], id, parse);
      DeltasNext(acts, Finished(k, items[k]), id, parse);
    }
  }

  // Completing a response emits no delta.
  lemma EndDeltas(acts: seq<Act>, response: Json, emitted: seq<ModelEvent>, end: StreamEnd, id: string,
                  parse: string -> Option<Json>)
    requires ReadsEnd(acts, response, emitted, end, parse)
    ensures DeltasFor(emitted, id) == DeltasFor(AllSaid(acts, parse), id)
  {
    if Str(response, "status") == Some("completed") && At(response, "output").Array? {
      var items := At(response, "output").elements;
      OutputDeltas(items, 0, acts, id, parse);
      var said := AllSaid(ReadOutput(items, 0, acts, parse).1, parse);
      var last := StepFinished(UsageOf(At(response, "usage")));
      FlatMapJoins(said, [last], (e: ModelEvent) => DeltaFor(e, id));
      FlatMapOne(last, (e: ModelEvent) => DeltaFor(e, id));
    }
  }

  // For every item, the deltas emitted are the delta strings of the provider's events for it, in their
  // order and each once, up to the event that ends the stream.
  lemma DeltasArrive(input: seq<Json>, id: string, parse: string -> Option<Json>)
    ensures DeltasFor(Outcome(input, parse).0, id) == ProviderDeltas(input[..Read(input, 0, [], parse).0], id)
  {
    var (n, all) := Read(input, 0, [], parse);
    var (emitted, end) := Outcome(input, parse);
    ParseReads(input, parse);
    ReadDeltas(input, 0, [], id, parse);
    assert input[0..n] == input[..n];
    if n < |input| && StopOf(input[n]).Completes? {
      EndDeltas(all, StopOf(input[n]).response, emitted, end, id, parse);
    }
  }
}
