// When a run of the agent loop succeeds, and what it then leaves: told by its environment alone.
module RunTranscripts {
  import opened Basics
  import opened Conversation
  import opened ModelStep
  import opened Engine
  import opened EngineRuns
  import opened StreamedText

  // ---- What a step leaves when nothing goes wrong ----

  // The items its provider completed, or else the messages made of what was streamed.
  function Output(step: nat, env: Environment): seq<Item> {
    var events := env.stream(step);
    var completed := FlatMap(events, (e: ModelEvent) => if e.ItemCompleted? then [e.item] else []);
    if completed != [] then completed
    else FlatMap(env.order(step, TextsOf(events)), (id: string) => LeftOver(events, id))
  }

  function OutputCalls(step: nat, env: Environment): (calls: seq<Item>)
    ensures AllCalls(calls)
  {
    CallsIn(Output(step, env))
  }

  function CallsIn(items: seq<Item>): (calls: seq<Item>)
    ensures AllCalls(calls)
  {
    if items == [] then []
    else
      var init := CallsIn(items[..|items| - 1]);
      if items[|items| - 1].ToolCall? then init + [items[|items| - 1]] else init
  }

  // One result for each call, with the outcome of that call.
  function Answers(step: nat, env: Environment): seq<Item> {
    var calls := OutputCalls(step, env);
    seq(|calls|, k requires 0 <= k < |calls| => AnswerTo(calls[k], step, k, env))
  }

  function AnswerTo(call: Item, step: nat, k: nat, env: Environment): Item
    requires call.ToolCall?
  {
    var (output, isError) := env.outcome(step, call.callId);
    ToolResult(env.resultId(step, k + 1), call.callId, output, isError)
  }

  // What the first n steps leave.
  function Transcript(n: nat, env: Environment): seq<Item> {
    if n == 0 then [] else Transcript(n - 1, env) + Output(n - 1, env) + Answers(n - 1, env)
  }

  lemma OutputIs(step: nat, env: Environment)
    ensures Output(step, env) == StepOutput(step, env)
  {
    var events := env.stream(step);
    SameCompleted(events);
    AllLeftOver(env.order(step, TextsOf(events)), events);
  }

  lemma {:induction false} SameCompleted(events: seq<ModelEvent>)
    ensures CompletedItems(events) == FlatMap(events, (e: ModelEvent) => if e.ItemCompleted? then [e.item] else [])
  {
    if events != [] { SameCompleted(events[..|events| - 1]); }
  }

  lemma {:induction false} CallsAre(items: seq<Item>)
    ensures CallsIn(items) == ToolCallsOf(items)
  {
    if items != [] { CallsAre(Init(items)); }
  }

  lemma {:induction false} ExecuteAt(calls: seq<Item>, step: nat, env: Environment, k: nat)
    requires AllCalls(calls) && k < |calls|
    ensures Execute(calls, step, env)[k] == AnswerTo(calls[k], step, k, env)
  {
    if k < |calls| - 1 {
      ExecuteAt(Init(calls), step, env, k);
      assert Init(calls)[k] == calls[k];
    }
  }

  lemma AnswersAre(step: nat, env: Environment)
    ensures OutputCalls(step, env) == ToolCallsOf(StepOutput(step, env))
    ensures Answers(step, env) == Execute(OutputCalls(step, env), step, env)
  {
    OutputIs(step, env);
    CallsAre(Output(step, env));
    var calls := OutputCalls(step, env);
    forall k | 0 <= k < |calls| ensures Answers(step, env)[k] == Execute(calls, step, env)[k] {
      ExecuteAt(calls, step, env, k);
    }
  }

  // ---- When nothing goes wrong ----

  predicate Quiet(env: Environment, p: Point) {
    env.interrupt(p).None?
  }

  // The provider's stream, from one event on, is not interrupted and the validator finds no fault with it.
  ghost predicate StreamsWell(history: seq<Item>, step: nat, env: Environment) {
    var events := env.stream(step);
    && (forall k: nat | k <= |events| :: Quiet(env, BeforeEvent(step, k)))
    && (forall k: nat | k < |events| :: Quiet(env, AfterEvent(step, k)))
    && StreamError(StartView(history), events, 0).None?
    && (CompletedItems(events) == [] ==>
          forall k: nat | k < |env.order(step, TextsOf(events))| ::
            LeftOver(events, env.order(step, TextsOf(events))[k]) != [] ==> Quiet(env, AfterFallback(step, k)))
  }

  ghost predicate StepsWell(history: seq<Item>, step: nat, env: Environment) {
    && Quiet(env, BeforeStep(step)) && StreamsWell(history, step, env) && Quiet(env, AfterStream(step))
    && (OutputCalls(step, env) != [] ==>
          && Quiet(env, BeforeCalls(step))
          && forall k: nat | k < |OutputCalls(step, env)| :: Quiet(env, AfterResult(step, k)))
  }

  lemma {:induction false} EventsWell(v: StepView, step: nat, events: seq<ModelEvent>, j: nat, env: Environment)
    requires j <= |events|
    ensures EventsFrom(v, step, events, j, env).1.None? <==>
              && (forall k: nat | j <= k <= |events| :: Quiet(env, BeforeEvent(step, k)))
              && (forall k: nat | j <= k < |events| :: Quiet(env, AfterEvent(step, k)))
              && StreamError(v, events, j).None?
    decreases |events| - j
  {
    if j < |events| && Quiet(env, BeforeEvent(step, j)) && Quiet(env, AfterEvent(step, j))
       && ObserveEvent(v, events[j]).1.None? {
      EventsWell(ObserveEvent(v, events[j]).0, step, events, j + 1, env);
    }
  }

  lemma {:induction false} FallbackWell(step: nat, ids: seq<string>, texts: Texts, j: nat, env: Environment)
    requires j <= |ids|
    ensures FallbackFrom(step, ids, texts, j, env).1.None? <==>
              forall k: nat | j <= k < |ids| :: Speaks(ids[k], texts) ==> Quiet(env, AfterFallback(step, k))
    decreases |ids| - j
  {
    if j < |ids| && !(Speaks(ids[j], texts) && env.interrupt(AfterFallback(step, j)).Some?) {
      FallbackWell(step, ids, texts, j + 1, env);
    }
  }

  lemma {:induction false} ResultsWell(step: nat, count: nat, j: nat, env: Environment)
    requires j <= count
    ensures ResultsFrom(step, count, j, env).1.None? <==>
              forall k: nat | j <= k < count :: Quiet(env, AfterResult(step, k))
    decreases count - j
  {
    if j < count && Quiet(env, AfterResult(step, j)) { ResultsWell(step, count, j + 1, env); }
  }

  lemma {:induction false} InputWell(count: nat, j: nat, env: Environment)
    requires j <= count
    ensures InputFrom(count, j, env).1.None? <==> forall k: nat | j <= k < count :: Quiet(env, AfterInput(k))
    decreases count - j
  {
    if j < count && Quiet(env, AfterInput(j)) { InputWell(count, j + 1, env); }
  }

  lemma SpeaksLeftOver(events: seq<ModelEvent>, id: string)
    ensures Speaks(id, TextsOf(events)) <==> LeftOver(events, id) != []
  {
    TableIsStreamed(events, id);
  }

  lemma StreamedWell(history: seq<Item>, step: nat, env: Environment)
    ensures Streamed(history, step, env).1.None? <==> StreamsWell(history, step, env)
  {
    var events := env.stream(step);
    var texts := TextsOf(events);
    EventsWell(StartView(history), step, events, 0, env);
    FallbackWell(step, env.order(step, texts), texts, 0, env);
    assert events[..|events|] == events;
    forall k: nat | k < |env.order(step, texts)|
      ensures Speaks(env.order(step, texts)[k], texts) <==> LeftOver(events, env.order(step, texts)[k]) != []
    {
      SpeaksLeftOver(events, env.order(step, texts)[k]);
    }
  }

  // A step ends well exactly when nothing goes wrong, and then leaves its output and the answers to its calls.
  lemma StepEndsWell(history: seq<Item>, step: nat, env: Environment)
    ensures var (taken, error) := TakeStep(history, step, env);
            && (error.None? <==> StepsWell(history, step, env))
            && (error.None? ==> taken.Items(step, env) == Output(step, env) + Answers(step, env)
                                && taken.Calls() == OutputCalls(step, env))
  {
    var (completed, error) := Streamed(history, step, env);
    StreamedWell(history, step, env);
    StreamedIsOutput(history, step, env);
    OutputIs(step, env);
    AnswersAre(step, env);
    if error.None? {
      ResultsWell(step, |OutputCalls(step, env)|, 0, env);
      var results := Answers(step, env);
      assert results[..|results|] == results;
    }
  }

  // From one step on, the steps go well up to the n-th, which is the first to make no call.
  ghost predicate GoesWell(base: seq<Item>, from: nat, n: nat, env: Environment)
    decreases n - from
  {
    && from < n && StepsWell(base + Transcript(from, env), from, env)
    && (if OutputCalls(from, env) == [] then n == from + 1 else GoesWell(base, from + 1, n, env))
  }

  lemma TranscriptNext(base: seq<Item>, step: nat, env: Environment)
    ensures base + Transcript(step + 1, env) == base + Transcript(step, env) + (Output(step, env) + Answers(step, env))
  {
    Regrouped(base, Transcript(step, env), Output(step, env), Answers(step, env));
  }

  lemma Regrouped(a: seq<Item>, b: seq<Item>, c: seq<Item>, d: seq<Item>)
    ensures a + (b + c + d) == a + b + (c + d)
  {
  }

  // What the steps from one on leave, when they end well.
  ghost predicate LeavesTranscript(base: seq<Item>, step: nat, n: nat, steps: seq<Taken>, env: Environment) {
    && n == step + |steps| && GoesWell(base, step, n, env)
    && base + Transcript(step, env) + RunItems(steps, step, env) == base + Transcript(n, env)
  }

  lemma LastStepLeaves(base: seq<Item>, step: nat, taken: Taken, env: Environment)
    requires StepsWell(base + Transcript(step, env), step, env) && OutputCalls(step, env) == []
    requires taken.Items(step, env) == Output(step, env) + Answers(step, env)
    ensures LeavesTranscript(base, step, step + 1, [taken], env)
  {
    TranscriptNext(base, step, env);
    assert RunItems([taken], step, env) == taken.Items(step, env) by { assert [taken][1..] == []; }
  }

  lemma StepMoreLeaves(base: seq<Item>, step: nat, n: nat, taken: Taken, rest: seq<Taken>, env: Environment)
    requires StepsWell(base + Transcript(step, env), step, env) && OutputCalls(step, env) != []
    requires taken.Items(step, env) == Output(step, env) + Answers(step, env)
    requires LeavesTranscript(base, step + 1, n, rest, env)
    ensures LeavesTranscript(base, step, n, [taken] + rest, env)
  {
    GoesWellFirst(base, step, n, env);
    TranscriptNext(base, step, env);
    StepInFront(base + Transcript(step, env), taken, rest, step, env);
  }

  lemma GoesWellFirst(base: seq<Item>, step: nat, n: nat, env: Environment)
    requires StepsWell(base + Transcript(step, env), step, env) && OutputCalls(step, env) != []
    requires GoesWell(base, step + 1, n, env)
    ensures GoesWell(base, step, n, env)
  {
  }

  lemma StepInFront(history: seq<Item>, taken: Taken, rest: seq<Taken>, step: nat, env: Environment)
    ensures history + RunItems([taken] + rest, step, env) ==
            history + taken.Items(step, env) + RunItems(rest, step + 1, env)
  {
    assert ([taken] + rest)[1..] == rest;
    var items := taken.Items(step, env);
    AssocHistory(history, items, RunItems(rest, step + 1, env), history + items);
  }

  // Steps that end well have gone well, and leave the transcript.
  lemma {:induction false} SuccessLeaves(base: seq<Item>, step: nat, maxSteps: nat, env: Environment) returns (n: nat)
    requires step < maxSteps && TakeSteps(base + Transcript(step, env), step, maxSteps, env).1.None?
    ensures LeavesTranscript(base, step, n, TakeSteps(base + Transcript(step, env), step, maxSteps, env).0, env)
    decreases maxSteps - step
  {
    var history := base + Transcript(step, env);
    var (taken, error) := TakeStep(history, step, env);
    StepEndsWell(history, step, env);
    FirstOfSteps(history, step, maxSteps, env);
    if taken.Calls() == [] {
      n := step + 1;
      LastStepLeaves(base, step, taken, env);
    } else {
      TranscriptNext(base, step, env);
      n := SuccessLeaves(base, step + 1, maxSteps, env);
      StepsAfterFirst(history, step, maxSteps, env);
      StepMoreLeaves(base, step, n, taken, TakeSteps(history + taken.Items(step, env), step + 1, maxSteps, env).0, env);
    }
  }

  // And steps that go well end well.
  lemma {:induction false} WellSucceeds(base: seq<Item>, step: nat, n: nat, maxSteps: nat, env: Environment)
    requires step < maxSteps && n <= maxSteps && GoesWell(base, step, n, env)
    ensures TakeSteps(base + Transcript(step, env), step, maxSteps, env).1.None?
    decreases n - step
  {
    var history := base + Transcript(step, env);
    StepEndsWell(history, step, env);
    FirstOfSteps(history, step, maxSteps, env);
    if OutputCalls(step, env) != [] {
      TranscriptNext(base, step, env);
      WellSucceeds(base, step + 1, n, maxSteps, env);
    }
  }

  // A run that succeeds leaves its input and the transcript of its steps, which have all gone well.
  lemma SuccessfulRun(h: seq<Item>, input: seq<Item>, maxSteps: nat, env: Environment)
    requires Run(h, input, maxSteps, env).error.None?
    ensures var n := |Run(h, input, maxSteps, env).steps|;
            && n <= maxSteps && GoesWell(h + input, 0, n, env)
            && HistoryAfter(h, input, maxSteps, env) == h + input + Transcript(n, env)
    ensures Quiet(env, Admission) && forall k: nat | k < |input| :: Quiet(env, AfterInput(k))
  {
    var ran := Run(h, input, maxSteps, env);
    var base := h + input;
    InputWell(|input|, 0, env);
    assert base + Transcript(0, env) == base;
    var n := SuccessLeaves(base, 0, maxSteps, env);
    assert input[..ran.given] == input;
    AssocHistory(h, input, RunItems(ran.steps, 0, env), base);
    assert h + RunAppends(ran, input, env) + [] == h + RunAppends(ran, input, env);
  }

  // And a run succeeds whenever, within the limit, its steps go well up to one that makes no call, and
  // nothing stops it before them.
  lemma WellRunSucceeds(h: seq<Item>, input: seq<Item>, n: nat, maxSteps: nat, env: Environment)
    requires Quiet(env, Admission) && forall k: nat | k < |input| :: Quiet(env, AfterInput(k))
    requires n <= maxSteps && GoesWell(h + input, 0, n, env)
    ensures Run(h, input, maxSteps, env).error.None?
  {
    InputWell(|input|, 0, env);
    assert h + input + Transcript(0, env) == h + input;
    WellSucceeds(h + input, 0, n, maxSteps, env);
  }

  // ---- What a run leaves that is stopped ----

  lemma PartOfStep(taken: Taken, step: nat, env: Environment)
    requires taken.completed <= Output(step, env) && taken.answered <= |taken.Calls()|
    requires 0 < taken.answered ==> taken.completed == Output(step, env)
    ensures taken.Items(step, env) <= Output(step, env) + Answers(step, env)
    ensures taken.completed == Output(step, env) && taken.answered == |taken.Calls()| ==>
              taken.Items(step, env) == Output(step, env) + Answers(step, env)
  {
    OutputIs(step, env);
    AnswersAre(step, env);
    var results := Execute(taken.Calls(), step, env);
    assert results[..|results|] == results;
  }

  lemma FirstPart(taken: Taken, rest: seq<Taken>, first: nat, env: Environment)
    requires taken.completed <= StepOutput(first, env) && taken.answered <= |taken.Calls()|
    requires 0 < taken.answered ==> taken.completed == StepOutput(first, env)
    ensures var was, now := Transcript(first, env), Transcript(first, env) + taken.Items(first, env);
            && was + RunItems([taken] + rest, first, env) == now + RunItems(rest, first + 1, env)
            && now <= Transcript(first + 1, env)
            && (taken.completed == StepOutput(first, env) && taken.answered == |taken.Calls()| ==>
                  now == Transcript(first + 1, env))
  {
    var was := Transcript(first, env);
    OutputIs(first, env);
    PartOfStep(taken, first, env);
    StepInFront(was, taken, rest, first, env);
    NextPart(was, taken.Items(first, env), Output(first, env), Answers(first, env));
  }

  lemma {:induction false} StepsArePart(steps: seq<Taken>, first: nat, n: nat, env: Environment)
    requires Stepwise(steps, first, env) && n == first + |steps|
    ensures Transcript(first, env) + RunItems(steps, first, env) <= Transcript(n, env)
    decreases |steps|
  {
    if steps == [] {
      assert Transcript(first, env) + [] == Transcript(first, env);
    } else {
      var taken, rest := steps[0], steps[1..];
      assert steps == [taken] + rest;
      FirstPart(taken, rest, first, env);
      if rest == [] {
        var now := Transcript(first, env) + taken.Items(first, env);
        assert now + [] == now;
      } else {
        StepsArePart(rest, first + 1, n, env);
      }
    }
  }

  lemma NextPart(was: seq<Item>, items: seq<Item>, output: seq<Item>, answers: seq<Item>)
    requires items <= output + answers
    ensures was + items <= was + output + answers
    ensures items == output + answers ==> was + items == was + output + answers
  {
    assert was + (output + answers) == was + output + answers;
  }

  // Wherever a run is stopped, it has appended a beginning of its input and the transcript of its steps.
  lemma StoppedRun(h: seq<Item>, input: seq<Item>, maxSteps: nat, env: Environment)
    ensures var ran := Run(h, input, maxSteps, env);
            RunAppends(ran, input, env) <= input + Transcript(|ran.steps|, env)
  {
    var ran := Run(h, input, maxSteps, env);
    RunStepwise(h, input, maxSteps, env);
    StepsArePart(ran.steps, 0, |ran.steps|, env);
    assert [] + RunItems(ran.steps, 0, env) == RunItems(ran.steps, 0, env);
    if ran.steps == [] {
      assert input[..ran.given] + [] == input[..ran.given];
    } else {
      assert input[..ran.given] == input;
    }
  }
}
