// A run of the agent loop over a session history, stopped at an arbitrary point.
module EngineRuns {
  import opened Basics
  import opened Conversation
  import opened Context
  import opened ModelStep
  import opened Engine

  datatype RunError =
    | Cancelled
    | LimitExceeded
    | ContextRejected
    | ModelFailed
    | InvalidEvent(error: StepError)
    | UnexpectedEnd
    | MaxStepsExceeded(maxSteps: nat)

  // Where a run may be stopped from outside: a cancellation, a limit, a failing context policy,
  // provider, coordinator or event channel. Steps, events, ids and results are counted from 0.
  datatype Point =
    | Admission
    | AfterInput(item: nat)
    | BeforeStep(step: nat)
    | BeforeEvent(step: nat, event: nat)
    | AfterEvent(step: nat, event: nat)
    | AfterFallback(step: nat, index: nat)
    | AfterStream(step: nat)
    | BeforeCalls(step: nat)
    | AfterResult(step: nat, index: nat)

  // The text streamed so far for each assistant message, and its phase.
  type Texts = map<string, (string, Phase)>

  // Everything the loop does not control. `order` is a hash map's iteration order; the ids that are
  // drawn for new items are named by step and place, and by place for the closing results.
  datatype Environment = Environment(
    interrupt: Point -> Option<RunError>,
    stream: nat -> seq<ModelEvent>,
    outcome: (nat, string) -> (ToolOutput, bool),
    order: (nat, Texts) -> seq<string>,
    resultId: (nat, nat) -> string,
    closingId: nat -> string)

  // ---- One model step ----

  // The items a provider stream completes, in order.
  function CompletedItems(events: seq<ModelEvent>): seq<Item> {
    FlatMap(events, CompletedBy)
  }

  function CompletedBy(event: ModelEvent): seq<Item> {
    if event.ItemCompleted? then [event.item] else []
  }

  function TextsAfter(texts: Texts, event: ModelEvent): Texts {
    match event
    case ItemStarted(id, itemType, phase) =>
      if itemType != "assistant_message" then texts
      else texts[id := ("", if phase.Some? then phase.value else FinalAnswer)]
    case TextDelta(id, delta) =>
      if id in texts then texts[id := (texts[id].0 + delta, texts[id].1)] else texts[id := (delta, FinalAnswer)]
    case _ => texts
  }

  function TextsOf(events: seq<ModelEvent>): Texts {
    if events == [] then map[] else TextsAfter(TextsOf(events[..|events| - 1]), events[|events| - 1])
  }

  predicate Speaks(id: string, texts: Texts) {
    id in texts && texts[id].0 != ""
  }

  // The messages made of text that was streamed but never completed.
  function FallbackItems(ids: seq<string>, texts: Texts): seq<Item> {
    FlatMap(ids, (id: string) => FallbackItem(id, texts))
  }

  function FallbackItem(id: string, texts: Texts): seq<Item> {
    if Speaks(id, texts) then [AssistantMessage(id, [Text(texts[id].0)], texts[id].1)] else []
  }

  // How many events of a stream are taken, from the j-th on, and why the stream stops early.
  function EventsFrom(v: StepView, step: nat, events: seq<ModelEvent>, j: nat,
                      env: Environment): (r: (nat, Option<RunError>))
    requires j <= |events|
    ensures j <= r.0 <= |events| && (r.1.None? ==> r.0 == |events|)
    decreases |events| - j
  {
    match env.interrupt(BeforeEvent(step, j))
    case Some(e) => (j, Some(e))
    case None =>
      if j == |events| then (j, if v.finished then None else Some(UnexpectedEnd))
      else
        var (w, invalid) := ObserveEvent(v, events[j]);
        if invalid.Some? then (j, Some(InvalidEvent(invalid.value)))
        else
          match env.interrupt(AfterEvent(step, j))
          case Some(e) => (j + 1, Some(e))
          case None => EventsFrom(w, step, events, j + 1, env)
  }

  function FallbackFrom(step: nat, ids: seq<string>, texts: Texts, j: nat,
                        env: Environment): (r: (nat, Option<RunError>))
    requires j <= |ids|
    ensures j <= r.0 <= |ids| && (r.1.None? ==> r.0 == |ids|)
    decreases |ids| - j
  {
    if j == |ids| then (j, None)
    else if Speaks(ids[j], texts) && env.interrupt(AfterFallback(step, j)).Some? then
      (j + 1, env.interrupt(AfterFallback(step, j)))
    else FallbackFrom(step, ids, texts, j + 1, env)
  }

  // The items a step's stream leaves in the session: the completed ones, or else the fallback messages.
  function Streamed(history: seq<Item>, step: nat, env: Environment): (seq<Item>, Option<RunError>) {
    var events := env.stream(step);
    var (n, error) := EventsFrom(StartView(history), step, events, 0, env);
    var completed := CompletedItems(events[..n]);
    if error.Some? || completed != [] then (completed, error)
    else
      var texts := TextsOf(events);
      var ids := env.order(step, texts);
      var (m, stop) := FallbackFrom(step, ids, texts, 0, env);
      (FallbackItems(ids[..m], texts), stop)
  }

  // What a step appends when it ends well.
  function StepOutput(step: nat, env: Environment): seq<Item> {
    var events := env.stream(step);
    var texts := TextsOf(events);
    if CompletedItems(events) != [] then CompletedItems(events) else FallbackItems(env.order(step, texts), texts)
  }

  // ---- Tool calls ----

  // The coordinator answers a batch in call order, one result per call.
  function Execute(calls: seq<Item>, step: nat, env: Environment): (results: seq<Item>)
    ensures AllResults(results) && |results| == |calls|
  {
    if calls == [] then []
    else
      var call := Last(calls);
      var (output, isError) := env.outcome(step, CallOf(call));
      Execute(Init(calls), step, env) + [ToolResult(env.resultId(step, |calls|), CallOf(call), output, isError)]
  }

  lemma {:induction false} ExecuteAnswers(calls: seq<Item>, step: nat, env: Environment)
    ensures IdList(Execute(calls, step, env)) == IdList(calls)
  {
    if calls != [] {
      ExecuteAnswers(Init(calls), step, env);
      var results := Execute(calls, step, env);
      assert Init(results) == Execute(Init(calls), step, env);
    }
  }

  // How many of a batch's results are appended.
  function ResultsFrom(step: nat, count: nat, j: nat, env: Environment): (r: (nat, Option<RunError>))
    requires j <= count
    ensures j <= r.0 <= count && (r.1.None? ==> r.0 == count)
    decreases count - j
  {
    if j == count then (j, None)
    else
      match env.interrupt(AfterResult(step, j))
      case Some(e) => (j + 1, Some(e))
      case None => ResultsFrom(step, count, j + 1, env)
  }

  // ---- The run ----

  // What one step of a run has appended: its items and the answers to its calls so far.
  datatype Taken = Taken(completed: seq<Item>, answered: nat) {
    function Calls(): seq<Item> {
      ToolCallsOf(completed)
    }

    function Items(step: nat, env: Environment): seq<Item> {
      completed + Execute(Calls(), step, env)[..Min(answered, |Calls()|)]
    }
  }

  // One iteration of the step loop: a model step, then the answers to its calls.
  function TakeStep(history: seq<Item>, step: nat, env: Environment): (r: (Taken, Option<RunError>))
    ensures r.0.answered <= |r.0.Calls()|
    ensures r.1.None? ==> r.0.answered == |r.0.Calls()|
  {
    match env.interrupt(BeforeStep(step))
    case Some(e) => (Taken([], 0), Some(e))
    case None =>
      var (completed, error) := Streamed(history, step, env);
      if error.Some? then (Taken(completed, 0), error)
      else
        match env.interrupt(AfterStream(step))
        case Some(e) => (Taken(completed, 0), Some(e))
        case None =>
          if ToolCallsOf(completed) == [] then (Taken(completed, 0), None)
          else
            match env.interrupt(BeforeCalls(step))
            case Some(e) => (Taken(completed, 0), Some(e))
            case None =>
              var (n, stop) := ResultsFrom(step, |ToolCallsOf(completed)|, 0, env);
              (Taken(completed, n), stop)
  }

  // The steps from one on: the loop goes on while steps make calls and the limit allows.
  function TakeSteps(history: seq<Item>, step: nat, maxSteps: nat,
                     env: Environment): (r: (seq<Taken>, Option<RunError>))
    requires step < maxSteps
    ensures 0 < |r.0| <= maxSteps - step
    decreases maxSteps - step
  {
    var (taken, error) := TakeStep(history, step, env);
    if error.Some? || taken.Calls() == [] then ([taken], error)
    else if step + 1 >= maxSteps then ([taken], Some(MaxStepsExceeded(maxSteps)))
    else
      var (rest, stop) := TakeSteps(history + taken.Items(step, env), step + 1, maxSteps, env);
      ([taken] + rest, stop)
  }

  function InputFrom(count: nat, j: nat, env: Environment): (r: (nat, Option<RunError>))
    requires j <= count
    ensures j <= r.0 <= count && (r.1.None? ==> r.0 == count)
    decreases count - j
  {
    if j == count then (j, None)
    else
      match env.interrupt(AfterInput(j))
      case Some(e) => (j + 1, Some(e))
      case None => InputFrom(count, j + 1, env)
  }

  // How a run ends: how much of the input and which steps it has appended, and its error.
  datatype Ran = Ran(given: nat, steps: seq<Taken>, error: Option<RunError>)

  function Run(history: seq<Item>, input: seq<Item>, maxSteps: nat, env: Environment): (r: Ran)
    ensures r.given <= |input| && |r.steps| <= maxSteps
    ensures r.steps != [] ==> r.given == |input|
    ensures r.error.None? ==> r.steps != []
  {
    if maxSteps == 0 then Ran(0, [], Some(MaxStepsExceeded(0)))
    else if env.interrupt(Admission).Some? then Ran(0, [], env.interrupt(Admission))
    else
      var (given, error) := InputFrom(|input|, 0, env);
      if error.Some? then Ran(given, [], error)
      else
        var (steps, stop) := TakeSteps(history + input, 0, maxSteps, env);
        Ran(given, steps, stop)
  }

  // The items of steps, the first of which has the given number.
  function RunItems(steps: seq<Taken>, first: nat, env: Environment): seq<Item> {
    if steps == [] then [] else steps[0].Items(first, env) + RunItems(steps[1..], first + 1, env)
  }

  // What a run appends, and the closing results of a run that fails.
  function RunAppends(ran: Ran, input: seq<Item>, env: Environment): seq<Item>
    requires ran.given <= |input|
  {
    input[..ran.given] + RunItems(ran.steps, 0, env)
  }

  function RunCloses(ran: Ran, input: seq<Item>, env: Environment): seq<Item>
    requires ran.given <= |input|
  {
    if ran.error.None? then [] else Closing(Unanswered(RunAppends(ran, input, env)), env.closingId)
  }

  function HistoryAfter(history: seq<Item>, input: seq<Item>, maxSteps: nat, env: Environment): seq<Item> {
    var ran := Run(history, input, maxSteps, env);
    history + RunAppends(ran, input, env) + RunCloses(ran, input, env)
  }

  // ---- A run leaves a legal history ----

  lemma CompletedNext(events: seq<ModelEvent>, k: nat)
    requires k < |events|
    ensures CompletedItems(events[..k + 1]) ==
            CompletedItems(events[..k]) + (if events[k].ItemCompleted? then [events[k].item] else [])
    ensures TextsOf(events[..k + 1]) == TextsAfter(TextsOf(events[..k]), events[k])
  {
    assert events[..k + 1][..k] == events[..k];
  }

  lemma {:induction false} CompletedPrefix(events: seq<ModelEvent>, k: nat)
    requires k <= |events|
    ensures CompletedItems(events[..k]) <= CompletedItems(events)
    decreases |events| - k
  {
    if k < |events| {
      CompletedNext(events, k);
      CompletedPrefix(events, k + 1);
    } else {
      assert events[..k] == events;
    }
  }

  lemma {:induction false} FallbackPrefix(ids: seq<string>, texts: Texts, k: nat)
    requires k <= |ids|
    ensures FallbackItems(ids[..k], texts) <= FallbackItems(ids, texts)
    decreases |ids| - k
  {
    if k < |ids| {
      assert ids[..k + 1][..k] == ids[..k];
      FallbackPrefix(ids, texts, k + 1);
    } else {
      assert ids[..k] == ids;
    }
  }

  // A step never appends more than its stream gives it.
  lemma StreamedIsOutput(history: seq<Item>, step: nat, env: Environment)
    ensures var (completed, error) := Streamed(history, step, env);
            completed <= StepOutput(step, env) && (error.None? ==> completed == StepOutput(step, env))
  {
    var events := env.stream(step);
    var (n, error) := EventsFrom(StartView(history), step, events, 0, env);
    CompletedPrefix(events, n);
    if error.None? { assert events[..n] == events; }
    if error.None? && CompletedItems(events) == [] {
      var texts := TextsOf(events);
      var ids := env.order(step, texts);
      var (m, stop) := FallbackFrom(step, ids, texts, 0, env);
      FallbackPrefix(ids, texts, m);
      if stop.None? { assert ids[..m] == ids; }
    }
  }

  // What the validator's consent to a completed item says about it.
  lemma ConsentMeaning(v: StepView, event: ModelEvent)
    requires ObserveEvent(v, event).1.None?
    ensures ObserveEvent(v, event).0.callIds ==
            v.callIds + (if event.ItemCompleted? && event.item.ToolCall? then {event.item.callId} else {})
    ensures event.ItemCompleted? ==>
      && !event.item.UserMessage? && !event.item.ToolResult?
      && (event.item.ToolCall? ==> !Blank(event.item.callId) && event.item.callId !in v.callIds)
  {
  }

  lemma EventLegal(before: set<string>, xs: seq<Item>, v: StepView, event: ModelEvent)
    requires StepItems(xs, before) && v.callIds == before + CallIds(xs) && ObserveEvent(v, event).1.None?
    ensures var more := if event.ItemCompleted? then xs + [event.item] else xs;
            StepItems(more, before) && ObserveEvent(v, event).0.callIds == before + CallIds(more)
  {
    ConsentMeaning(v, event);
    if event.ItemCompleted? { ItemLegal(before, xs, event.item); }
  }

  lemma ItemLegal(before: set<string>, xs: seq<Item>, x: Item)
    requires StepItems(xs, before) && !x.UserMessage? && !x.ToolResult?
    requires x.ToolCall? ==> !Blank(x.callId) && x.callId !in before + CallIds(xs)
    ensures StepItems(xs + [x], before)
    ensures before + CallIds(xs + [x]) == before + CallIds(xs) + (if x.ToolCall? then {x.callId} else {})
  {
    StepItemsSnoc(xs, x, before);
  }

  // The items a stream completes are items a step may append.
  lemma {:induction false} EventsLegal(history: seq<Item>, v: StepView, step: nat, events: seq<ModelEvent>, j: nat,
                                       env: Environment)
    requires j <= |events| && StepItems(CompletedItems(events[..j]), CallIds(history))
    requires v.callIds == CallIds(history) + CallIds(CompletedItems(events[..j]))
    ensures StepItems(CompletedItems(events[..EventsFrom(v, step, events, j, env).0]), CallIds(history))
    decreases |events| - j
  {
    if env.interrupt(BeforeEvent(step, j)).None? && j < |events| && ObserveEvent(v, events[j]).1.None? {
      EventLegal(CallIds(history), CompletedItems(events[..j]), v, events[j]);
      CompletedGrows(events, j);
      if env.interrupt(AfterEvent(step, j)).None? {
        EventsLegal(history, ObserveEvent(v, events[j]).0, step, events, j + 1, env);
      }
    }
  }

  lemma CompletedGrows(events: seq<ModelEvent>, k: nat)
    requires k < |events|
    ensures var before := CompletedItems(events[..k]);
            CompletedItems(events[..k + 1]) == if events[k].ItemCompleted? then before + [events[k].item] else before
  {
    CompletedNext(events, k);
  }

  lemma {:induction false} FallbackLegal(ids: seq<string>, texts: Texts, before: set<string>)
    ensures StepItems(FallbackItems(ids, texts), before)
  {
    if ids != [] {
      var init := ids[..|ids| - 1];
      FallbackLegal(init, texts, before);
      var id := ids[|ids| - 1];
      assert FallbackItems(ids, texts) == FallbackItems(init, texts) + FallbackItem(id, texts);
      if Speaks(id, texts) {
        StepItemsSnoc(FallbackItems(init, texts), AssistantMessage(id, [Text(texts[id].0)], texts[id].1), before);
      } else {
        assert FallbackItems(init, texts) + [] == FallbackItems(init, texts);
      }
    }
  }

  lemma StreamedLegal(history: seq<Item>, step: nat, env: Environment)
    ensures StepItems(Streamed(history, step, env).0, CallIds(history))
  {
    var events := env.stream(step);
    assert events[..0] == [];
    EventsLegal(history, StartView(history), step, events, 0, env);
    var texts := TextsOf(events);
    var ids := env.order(step, texts);
    var (m, _) := FallbackFrom(step, ids, texts, 0, env);
    FallbackLegal(ids[..m], texts, CallIds(history));
  }

  // A step keeps the history resumable, and settled when it ends well.
  lemma StepLegal(h: seq<Item>, base: seq<Item>, step: nat, env: Environment)
    requires Settled(h, base)
    ensures var (taken, error) := TakeStep(h + base, step, env);
            Resumable(h, base + taken.Items(step, env)) && (error.None? ==> Settled(h, base + taken.Items(step, env)))
  {
    var (taken, error) := TakeStep(h + base, step, env);
    var completed := taken.completed;
    assert StepItems(completed, CallIds(h + base)) by { StreamedLegal(h + base, step, env); }
    var results := Execute(ToolCallsOf(completed), step, env);
    ExecuteAnswers(ToolCallsOf(completed), step, env);
    StepAddsResults(h, base, completed, results, taken.answered);
    Assoc(base, completed, results[..taken.answered]);
    if ToolCallsOf(completed) == [] {
      SettledAddsStep(h, base, completed);
      assert completed + results[..0] == completed;
    }
  }

  // The first step of several, and the ones after it.
  lemma FirstOfSteps(history: seq<Item>, step: nat, maxSteps: nat, env: Environment)
    requires step < maxSteps
    ensures var (taken, error) := TakeStep(history, step, env);
            var (steps, stop) := TakeSteps(history, step, maxSteps, env);
            && steps[0] == taken
            && if error.Some? || taken.Calls() == [] then steps == [taken] && stop == error
               else if step + 1 >= maxSteps then steps == [taken] && stop == Some(MaxStepsExceeded(maxSteps))
               else (steps[1..], stop) == TakeSteps(history + taken.Items(step, env), step + 1, maxSteps, env)
  {
  }

  lemma {:induction false} StepsLegal(h: seq<Item>, base: seq<Item>, step: nat, maxSteps: nat, env: Environment)
    requires step < maxSteps && Settled(h, base)
    ensures var (steps, error) := TakeSteps(h + base, step, maxSteps, env);
            && Resumable(h, base + RunItems(steps, step, env))
            && (error.None? ==> Settled(h, base + RunItems(steps, step, env)))
    decreases maxSteps - step
  {
    var (taken, error) := TakeStep(h + base, step, env);
    var (steps, _) := TakeSteps(h + base, step, maxSteps, env);
    var items := taken.Items(step, env);
    FirstOfSteps(h + base, step, maxSteps, env);
    StepLegal(h, base, step, env);
    Assoc(base, items, RunItems(steps[1..], step + 1, env));
    if error.Some? || taken.Calls() == [] || step + 1 >= maxSteps {
      assert steps[1..] == [] && base + items + [] == base + items;
    } else {
      Assoc(h, base, items);
      StepsLegal(h, base + items, step + 1, maxSteps, env);
    }
  }

  // Every step of a run is its stream's output, or a beginning of it; all but the last made calls
  // and got every answer.
  predicate Stepwise(steps: seq<Taken>, first: nat, env: Environment) {
    steps != [] ==>
      && steps[0].completed <= StepOutput(first, env) && steps[0].answered <= |steps[0].Calls()|
      && (0 < steps[0].answered ==> steps[0].completed == StepOutput(first, env))
      && (|steps| > 1 ==> steps[0].completed == StepOutput(first, env) && 0 < steps[0].answered == |steps[0].Calls()|)
      && Stepwise(steps[1..], first + 1, env)
  }

  lemma TakenIsOutput(history: seq<Item>, step: nat, env: Environment)
    ensures var (taken, error) := TakeStep(history, step, env);
            && taken.completed <= StepOutput(step, env)
            && (error.None? || 0 < taken.answered ==> taken.completed == StepOutput(step, env))
  {
    StreamedIsOutput(history, step, env);
    TakenMeans(history, step, env);
  }

  lemma TakenMeans(history: seq<Item>, step: nat, env: Environment)
    ensures var (taken, error) := TakeStep(history, step, env);
            var (completed, fault) := Streamed(history, step, env);
            && (taken.completed == completed || taken == Taken([], 0))
            && (error.None? || 0 < taken.answered ==> taken.completed == completed && fault.None?)
  {
    if env.interrupt(BeforeStep(step)).None? {
      var (completed, fault) := Streamed(history, step, env);
      if fault.None? && env.interrupt(AfterStream(step)).None? && ToolCallsOf(completed) != [] {
        if env.interrupt(BeforeCalls(step)).Some? {
          assert TakeStep(history, step, env).0 == Taken(completed, 0);
        } else {
          var (n, stop) := ResultsFrom(step, |ToolCallsOf(completed)|, 0, env);
          assert TakeStep(history, step, env) == (Taken(completed, n), stop);
        }
      } else {
        assert TakeStep(history, step, env).0 == Taken(completed, 0);
      }
    }
  }

  lemma StepwiseCons(taken: Taken, rest: seq<Taken>, first: nat, env: Environment)
    requires taken.completed <= StepOutput(first, env) && taken.answered <= |taken.Calls()|
             && Stepwise(rest, first + 1, env)
    requires 0 < taken.answered ==> taken.completed == StepOutput(first, env)
    requires rest != [] ==> taken.completed == StepOutput(first, env) && 0 < taken.answered == |taken.Calls()|
    ensures Stepwise([taken] + rest, first, env)
  {
    assert ([taken] + rest)[1..] == rest;
  }

  lemma {:induction false} StepsStepwise(history: seq<Item>, step: nat, maxSteps: nat, env: Environment)
    requires step < maxSteps
    ensures Stepwise(TakeSteps(history, step, maxSteps, env).0, step, env)
    decreases maxSteps - step
  {
    var (taken, error) := TakeStep(history, step, env);
    var rest := TakeSteps(history, step, maxSteps, env).0[1..];
    FirstOfSteps(history, step, maxSteps, env);
    TakenIsOutput(history, step, env);
    if error.None? && taken.Calls() != [] && step + 1 < maxSteps {
      StepsStepwise(history + taken.Items(step, env), step + 1, maxSteps, env);
    }
    StepwiseCons(taken, rest, step, env);
  }

  // The last step is whole and makes no call.
  predicate EndsWell(steps: seq<Taken>, first: nat, env: Environment) {
    && steps != []
    && if |steps| == 1 then steps[0].completed == StepOutput(first, env) && steps[0].Calls() == []
       else EndsWell(steps[1..], first + 1, env)
  }

  // ---- When the history a run leaves is legal ----

  // Every step by itself puts no text or reasoning after a tool call.
  predicate StepsCallLast(steps: seq<Taken>) {
    forall k | 0 <= k < |steps| :: CallsLast(steps[k].completed)
  }

  // The calls come last in all a run appends exactly when they do in each step: input and
  // answered batches put nothing between a call and a message.
  lemma {:induction false} RunCallsLast(base: seq<Item>, steps: seq<Taken>, first: nat, env: Environment)
    requires Stepwise(steps, first, env) && (base != [] ==> !Last(base).ToolCall?)
    ensures CallsLast(base + RunItems(steps, first, env)) <==> CallsLast(base) && StepsCallLast(steps)
    decreases |steps|
  {
    if steps == [] {
      assert base + [] == base;
    } else {
      var taken, rest := steps[0], steps[1..];
      var items := taken.Items(first, env);
      assert steps == [taken] + rest;
      StepCallsLast(base, taken, first, env);
      Assoc(base, items, RunItems(rest, first + 1, env));
      if rest == [] {
        assert base + items + [] == base + items;
      } else {
        WholeStepEnds(base, taken, first, env);
        RunCallsLast(base + items, rest, first + 1, env);
      }
    }
  }

  lemma StepCallsLast(base: seq<Item>, taken: Taken, step: nat, env: Environment)
    requires taken.answered <= |taken.Calls()| && (base != [] ==> !Last(base).ToolCall?)
    ensures CallsLast(base + taken.Items(step, env)) <==> CallsLast(base) && CallsLast(taken.completed)
  {
    var results := Execute(taken.Calls(), step, env)[..taken.answered];
    CallsLastConcat(base, taken.completed);
    ResultsKeepOrder(base + taken.completed, results);
    Assoc(base, taken.completed, results);
  }

  lemma WholeStepEnds(base: seq<Item>, taken: Taken, step: nat, env: Environment)
    requires 0 < taken.answered == |taken.Calls()|
    ensures var all := base + taken.Items(step, env); all != [] && Last(all).ToolResult?
  {
    var results := Execute(taken.Calls(), step, env);
    assert Last(base + taken.Items(step, env)) == results[|results| - 1];
  }

  lemma {:induction false} InputCallsLast(input: seq<Item>)
    requires forall i | 0 <= i < |input| :: IsMessage(input[i])
    ensures CallsLast(input)
  {
    if input != [] { InputCallsLast(Init(input)); }
  }

  lemma {:induction false} InputLegal(h: seq<Item>, input: seq<Item>)
    requires forall i | 0 <= i < |input| :: IsMessage(input[i])
    ensures Settled(h, input)
  {
    if input == [] {
      assert h + [] == h;
    } else {
      InputLegal(h, Init(input));
      SettledAddsUser(h, Init(input), Last(input));
      Unsnoc(input);
    }
  }

  lemma RunAppendsLegal(h: seq<Item>, input: seq<Item>, maxSteps: nat, env: Environment)
    requires forall i | 0 <= i < |input| :: IsMessage(input[i])
    ensures var ran := Run(h, input, maxSteps, env);
            var appended := RunAppends(ran, input, env);
            Resumable(h, appended) && (ran.error.None? ==> Settled(h, appended))
  {
    var ran := Run(h, input, maxSteps, env);
    InputLegal(h, input[..ran.given]);
    if ran.steps == [] {
      assert input[..ran.given] + [] == input[..ran.given];
    } else {
      assert input[..ran.given] == input;
      StepsLegal(h, input, 0, maxSteps, env);
    }
  }

  lemma RunStepwise(h: seq<Item>, input: seq<Item>, maxSteps: nat, env: Environment)
    ensures Stepwise(Run(h, input, maxSteps, env).steps, 0, env)
  {
    if Run(h, input, maxSteps, env).steps != [] { StepsStepwise(h + input, 0, maxSteps, env); }
  }

  // Wherever a run stops, the history it leaves is legal exactly when no model step has put text
  // or reasoning after a tool call.
  lemma RunIsLegal(h: seq<Item>, input: seq<Item>, maxSteps: nat, env: Environment)
    requires Accepts(h) && forall i | 0 <= i < |input| :: IsMessage(input[i])
    ensures Accepts(HistoryAfter(h, input, maxSteps, env)) <==> StepsCallLast(Run(h, input, maxSteps, env).steps)
    // Otherwise the validator has failed, which nothing appended later can undo.
    ensures Scan(HistoryAfter(h, input, maxSteps, env)).Ok? ==> Accepts(HistoryAfter(h, input, maxSteps, env))
  {
    var ran := Run(h, input, maxSteps, env);
    var appended := RunAppends(ran, input, env);
    if Scan(h + appended).Err? { ScanErrorStays(h + appended, RunCloses(ran, input, env)); }
    RunAppendsLegal(h, input, maxSteps, env);
    RunStepwise(h, input, maxSteps, env);
    InputCallsLast(input[..ran.given]);
    RunCallsLast(input[..ran.given], ran.steps, 0, env);
    if ran.error.None? {
      assert h + appended + [] == h + appended;
    } else {
      ClosingAccepts(h, appended, env.closingId);
    }
  }

  // ---- What the provider of a step is given ----

  // The history a run has reached before its k-th step.
  function StepHistory(h: seq<Item>, input: seq<Item>, maxSteps: nat, env: Environment, k: nat): seq<Item>
    requires k <= |Run(h, input, maxSteps, env).steps|
  {
    h + (input + RunItems(Run(h, input, maxSteps, env).steps[..k], 0, env))
  }

  // The steps after the first one are those of a run that starts where it ended.
  lemma StepsAfterFirst(history: seq<Item>, step: nat, maxSteps: nat, env: Environment)
    requires step < maxSteps && |TakeSteps(history, step, maxSteps, env).0| > 1
    ensures var (taken, error) := TakeStep(history, step, env);
            && error.None? && step + 1 < maxSteps
            && var (rest, stop) := TakeSteps(history + taken.Items(step, env), step + 1, maxSteps, env);
               TakeSteps(history, step, maxSteps, env) == ([taken] + rest, stop)
  {
    var steps := TakeSteps(history, step, maxSteps, env).0;
    FirstOfSteps(history, step, maxSteps, env);
    assert steps == [steps[0]] + steps[1..];
  }

  lemma FirstItems(base: seq<Item>, taken: Taken, rest: seq<Taken>, step: nat, k: nat, env: Environment)
    requires 0 < k <= |rest| + 1
    ensures base + RunItems(([taken] + rest)[..k], step, env) ==
            base + taken.Items(step, env) + RunItems(rest[..k - 1], step + 1, env)
  {
    assert ([taken] + rest)[..k][1..] == rest[..k - 1] && ([taken] + rest)[..k][0] == taken;
    Assoc(base, taken.Items(step, env), RunItems(rest[..k - 1], step + 1, env));
  }

  // The k-th step from here on is taken from a settled history, and is the last one if it fails.
  ghost predicate TakenSettled(h: seq<Item>, base: seq<Item>, step: nat, steps: seq<Taken>, stop: Option<RunError>,
                               env: Environment, k: nat)
  {
    && k < |steps|
    && var now := base + RunItems(steps[..k], step, env);
       Settled(h, now) && IsStep(steps, stop, h + now, step, k, env)
  }

  ghost predicate IsStep(steps: seq<Taken>, stop: Option<RunError>, now: seq<Item>, step: nat, k: nat, env: Environment)
    requires k < |steps|
  {
    var (taken, error) := TakeStep(now, step + k, env);
    steps[k] == taken && (error.Some? ==> k + 1 == |steps| && stop == error)
  }

  lemma TakenSettledNext(h: seq<Item>, base: seq<Item>, step: nat, taken: Taken, rest: seq<Taken>,
                         stop: Option<RunError>, env: Environment, k: nat)
    requires 0 < k && TakenSettled(h, base + taken.Items(step, env), step + 1, rest, stop, env, k - 1)
    ensures TakenSettled(h, base, step, [taken] + rest, stop, env, k)
  {
    FirstItems(base, taken, rest, step, k, env);
  }

  lemma {:induction false} StepsBefore(h: seq<Item>, base: seq<Item>, step: nat, maxSteps: nat, env: Environment,
                                       k: nat)
    requires step < maxSteps && Settled(h, base) && k < |TakeSteps(h + base, step, maxSteps, env).0|
    ensures var (steps, stop) := TakeSteps(h + base, step, maxSteps, env);
            TakenSettled(h, base, step, steps, stop, env, k)
    decreases k
  {
    if k == 0 {
      FirstOfSteps(h + base, step, maxSteps, env);
      assert base + [] == base;
    } else {
      var (taken, error) := TakeStep(h + base, step, env);
      var more := base + taken.Items(step, env);
      StepsAfterFirst(h + base, step, maxSteps, env);
      Assoc(h, base, taken.Items(step, env));
      assert Settled(h, more) by { StepLegal(h, base, step, env); }
      StepsBefore(h, more, step + 1, maxSteps, env, k - 1);
      var (rest, stop) := TakeSteps(h + more, step + 1, maxSteps, env);
      TakenSettledNext(h, base, step, taken, rest, stop, env, k);
    }
  }

  lemma {:induction false} StepwisePrefix(steps: seq<Taken>, first: nat, env: Environment, k: nat)
    requires Stepwise(steps, first, env) && k <= |steps|
    ensures Stepwise(steps[..k], first, env)
    decreases k
  {
    if k > 0 {
      StepwisePrefix(steps[1..], first + 1, env, k - 1);
      assert steps[..k][1..] == steps[1..][..k - 1];
    }
  }

  // A context policy that validates the history, as both of them do, refuses it before a step exactly
  // when an earlier step of the run has put text or reasoning after a tool call.
  lemma StepHistoryIsLegal(h: seq<Item>, input: seq<Item>, maxSteps: nat, env: Environment, k: nat)
    requires Accepts(h) && forall i | 0 <= i < |input| :: IsMessage(input[i])
    requires k < |Run(h, input, maxSteps, env).steps|
    ensures var ran := Run(h, input, maxSteps, env);
            var now := StepHistory(h, input, maxSteps, env, k);
            && IsStep(ran.steps, ran.error, now, 0, k, env)
            && (Accepts(now) <==> StepsCallLast(ran.steps[..k]))
  {
    var steps := Run(h, input, maxSteps, env).steps;
    assert Settled(h, input) by { InputLegal(h, input); }
    assert CallsLast(input) by { InputCallsLast(input); }
    StepsBefore(h, input, 0, maxSteps, env, k);
    assert CallsLast(input + RunItems(steps[..k], 0, env)) <==> StepsCallLast(steps[..k]) by {
      RunStepwise(h, input, maxSteps, env);
      StepwisePrefix(steps, 0, env, k);
      RunCallsLast(input, steps[..k], 0, env);
    }
  }

  lemma {:induction false} CallsLastPrefix(xs: seq<Item>, n: nat)
    requires CallsLast(xs) && n <= |xs|
    ensures CallsLast(xs[..n])
  {
    if n < |xs| {
      assert Init(xs)[..n] == xs[..n];
      CallsLastPrefix(Init(xs), n);
    } else {
      assert xs[..n] == xs;
    }
  }

  lemma {:induction false} StepwiseCallsLast(steps: seq<Taken>, first: nat, maxSteps: nat, env: Environment)
    requires Stepwise(steps, first, env) && first + |steps| <= maxSteps
    requires forall k | first <= k < maxSteps :: CallsLast(StepOutput(k, env))
    ensures StepsCallLast(steps)
    decreases |steps|
  {
    if steps != [] {
      PartCallsLast(steps[0].completed, StepOutput(first, env));
      StepwiseCallsLast(steps[1..], first + 1, maxSteps, env);
      FirstCallsLast(steps);
    }
  }

  lemma PartCallsLast(part: seq<Item>, all: seq<Item>)
    requires part <= all && CallsLast(all)
    ensures CallsLast(part)
  {
    CallsLastPrefix(all, |part|);
    assert part == all[..|part|];
  }

  lemma FirstCallsLast(steps: seq<Taken>)
    requires steps != [] && CallsLast(steps[0].completed) && StepsCallLast(steps[1..])
    ensures StepsCallLast(steps)
  {
    forall k | 0 <= k < |steps| ensures CallsLast(steps[k].completed) {
      if k > 0 { assert steps[k] == steps[1..][k - 1]; }
    }
  }

  // So a provider whose steps put their calls last keeps every history legal, whatever stops the run.
  lemma WellOrderedProvider(h: seq<Item>, input: seq<Item>, maxSteps: nat, env: Environment)
    requires Accepts(h) && forall i | 0 <= i < |input| :: IsMessage(input[i])
    requires forall k | 0 <= k < maxSteps :: CallsLast(StepOutput(k, env))
    ensures Accepts(HistoryAfter(h, input, maxSteps, env))
  {
    RunStepwise(h, input, maxSteps, env);
    StepwiseCallsLast(Run(h, input, maxSteps, env).steps, 0, maxSteps, env);
    RunIsLegal(h, input, maxSteps, env);
  }

  // ---- Why a run fails ----

  // What is wrong with a stream by itself: the first event the validator refuses, or no end.
  function StreamError(v: StepView, events: seq<ModelEvent>, j: nat): Option<RunError>
    requires j <= |events|
    decreases |events| - j
  {
    if j == |events| then (if v.finished then None else Some(UnexpectedEnd))
    else
      var (w, invalid) := ObserveEvent(v, events[j]);
      if invalid.Some? then Some(InvalidEvent(invalid.value)) else StreamError(w, events, j + 1)
  }

  // The run was stopped from outside.
  ghost predicate Interrupted(env: Environment, error: Option<RunError>) {
    error.Some? && exists p :: env.interrupt(p) == error
  }

  lemma {:induction false} EventsCause(v: StepView, step: nat, events: seq<ModelEvent>, j: nat, env: Environment)
    requires j <= |events|
    ensures var error := EventsFrom(v, step, events, j, env).1;
            Interrupted(env, error) || error == StreamError(v, events, j)
    decreases |events| - j
  {
    if env.interrupt(BeforeEvent(step, j)).None? && j < |events| && ObserveEvent(v, events[j]).1.None?
      && env.interrupt(AfterEvent(step, j)).None? {
      EventsCause(ObserveEvent(v, events[j]).0, step, events, j + 1, env);
    }
  }

  lemma {:induction false} FallbackCause(step: nat, ids: seq<string>, texts: Texts, j: nat, env: Environment)
    requires j <= |ids|
    ensures var error := FallbackFrom(step, ids, texts, j, env).1; error.None? || Interrupted(env, error)
    decreases |ids| - j
  {
    if j < |ids| { FallbackCause(step, ids, texts, j + 1, env); }
  }

  lemma {:induction false} ResultsCause(step: nat, count: nat, j: nat, env: Environment)
    requires j <= count
    ensures var error := ResultsFrom(step, count, j, env).1; error.None? || Interrupted(env, error)
    decreases count - j
  {
    if j < count { ResultsCause(step, count, j + 1, env); }
  }

  lemma StreamedCause(history: seq<Item>, step: nat, env: Environment)
    ensures var error := Streamed(history, step, env).1;
            error.None? || Interrupted(env, error) || error == StreamError(StartView(history), env.stream(step), 0)
  {
    var events := env.stream(step);
    EventsCause(StartView(history), step, events, 0, env);
    var texts := TextsOf(events);
    FallbackCause(step, env.order(step, texts), texts, 0, env);
  }

  lemma StepCause(history: seq<Item>, step: nat, env: Environment)
    ensures var error := TakeStep(history, step, env).1;
            error.None? || Interrupted(env, error) || error == StreamError(StartView(history), env.stream(step), 0)
  {
    StreamedCause(history, step, env);
    ResultsCause(step, |ToolCallsOf(Streamed(history, step, env).0)|, 0, env);
  }

  // Why steps end as they do: with a step that makes no call, an interruption, a faulty stream in the
  // last step, or the step limit while the last step still made calls.
  ghost predicate StepsExplained(history: seq<Item>, steps: seq<Taken>, first: nat, maxSteps: nat, env: Environment,
                                 error: Option<RunError>)
    decreases |steps|
  {
    && steps != []
    && if |steps| > 1 then
         StepsExplained(history + steps[0].Items(first, env), steps[1..], first + 1, maxSteps, env, error)
       else if error.None? then EndsWell(steps, first, env)
       else
         || Interrupted(env, error)
         || error == StreamError(StartView(history), env.stream(first), 0)
         || (error == Some(MaxStepsExceeded(maxSteps)) && first + 1 == maxSteps
             && steps[0].completed == StepOutput(first, env) && 0 < steps[0].answered == |steps[0].Calls()|)
  }

  lemma OneStepExplained(history: seq<Item>, step: nat, maxSteps: nat, env: Environment)
    requires step < maxSteps
    requires var (taken, error) := TakeStep(history, step, env);
             error.Some? || taken.Calls() == [] || step + 1 >= maxSteps
    ensures var (steps, error) := TakeSteps(history, step, maxSteps, env);
            StepsExplained(history, steps, step, maxSteps, env, error)
  {
    FirstOfSteps(history, step, maxSteps, env);
    StepCause(history, step, env);
    TakenIsOutput(history, step, env);
  }

  lemma {:induction false} StepsCause(history: seq<Item>, step: nat, maxSteps: nat, env: Environment)
    requires step < maxSteps
    ensures var (steps, error) := TakeSteps(history, step, maxSteps, env);
            StepsExplained(history, steps, step, maxSteps, env, error)
    decreases maxSteps - step
  {
    var (taken, error) := TakeStep(history, step, env);
    if error.Some? || taken.Calls() == [] || step + 1 >= maxSteps {
      OneStepExplained(history, step, maxSteps, env);
    } else {
      FirstOfSteps(history, step, maxSteps, env);
      StepsCause(history + taken.Items(step, env), step + 1, maxSteps, env);
    }
  }

  lemma {:induction false} InputCause(count: nat, j: nat, env: Environment)
    requires j <= count
    ensures var error := InputFrom(count, j, env).1; error.None? || Interrupted(env, error)
    decreases count - j
  {
    if j < count { InputCause(count, j + 1, env); }
  }

  // Every failure has its cause, and a run without one succeeds.
  lemma RunCause(h: seq<Item>, input: seq<Item>, maxSteps: nat, env: Environment)
    ensures var ran := Run(h, input, maxSteps, env);
            if ran.steps == [] then Interrupted(env, ran.error)
              || (maxSteps == 0 && ran.error == Some(MaxStepsExceeded(0)))
            else StepsExplained(h + input, ran.steps, 0, maxSteps, env, ran.error)
  {
    if maxSteps > 0 {
      InputCause(|input|, 0, env);
      StepsCause(h + input, 0, maxSteps, env);
      assert env.interrupt(Admission).Some? ==> Interrupted(env, env.interrupt(Admission));
      assert InputFrom(|input|, 0, env).1.Some? ==> Run(h, input, maxSteps, env).steps == [];
    }
  }

  // ---- The failing provider is real ----

  // The step validator takes a message after a call, so a single such step leaves a history that
  // no closing repairs.
  lemma MessageAfterCall(h: seq<Item>, call: Item, message: Item, usage: Usage, maxSteps: nat, env: Environment)
    requires Accepts(h) && 0 < maxSteps && (forall p :: env.interrupt(p).None?)
    requires call.ToolCall? && !Blank(call.callId) && !Blank(call.name) && call.callId !in CallIds(h)
             && call.id !in ItemIds(h)
    requires message.AssistantMessage? && message.id !in ItemIds(h) + {call.id}
    requires env.stream(0) == [ItemCompleted(call), ItemCompleted(message), StepFinished(usage)]
    ensures StreamError(StartView(h), env.stream(0), 0).None?
    ensures !Accepts(HistoryAfter(h, [], maxSteps, env))
  {
    var events := env.stream(0);
    ThreeEvents(h, call, message, usage, env);
    var ran := Run(h, [], maxSteps, env);
    assert h + [] == h;
    FirstOfSteps(h, 0, maxSteps, env);
    assert ran.steps[0].completed == [call, message];
    assert Init([call, message]) == [call];
    assert !CallsLast(ran.steps[0].completed);
    RunIsLegal(h, [], maxSteps, env);
  }

  lemma ThreeEvents(h: seq<Item>, call: Item, message: Item, usage: Usage, env: Environment)
    requires forall p :: env.interrupt(p).None?
    requires call.ToolCall? && !Blank(call.callId) && !Blank(call.name) && call.callId !in CallIds(h)
             && call.id !in ItemIds(h)
    requires message.AssistantMessage? && message.id !in ItemIds(h) + {call.id}
    requires env.stream(0) == [ItemCompleted(call), ItemCompleted(message), StepFinished(usage)]
    ensures StreamError(StartView(h), env.stream(0), 0).None?
    ensures Streamed(h, 0, env) == ([call, message], None)
  {
    var events := env.stream(0);
    ThreeAccepted(h, call, message, usage);
    Undisturbed(StartView(h), 0, events, 0, env);
    CompletedNext(events, 0);
    CompletedNext(events, 1);
    CompletedNext(events, 2);
    assert events[..0] == [] && events[..3] == events;
    assert CompletedItems(events) == [call, message];
  }

  lemma ThreeAccepted(h: seq<Item>, call: Item, message: Item, usage: Usage)
    requires call.ToolCall? && !Blank(call.callId) && !Blank(call.name) && call.callId !in CallIds(h)
             && call.id !in ItemIds(h)
    requires message.AssistantMessage? && message.id !in ItemIds(h) + {call.id}
    ensures StreamError(StartView(h), [ItemCompleted(call), ItemCompleted(message), StepFinished(usage)], 0).None?
  {
    var events := [ItemCompleted(call), ItemCompleted(message), StepFinished(usage)];
    var v0 := StartView(h);
    var v1 := ObserveEvent(v0, events[0]).0;
    var v2 := ObserveEvent(v1, events[1]).0;
    assert ObserveEvent(v0, events[0]).1.None? && ObserveEvent(v1, events[1]).1.None?;
    var v3 := ObserveEvent(v2, events[2]).0;
    assert ObserveEvent(v2, events[2]).1.None? && v3.finished;
    assert StreamError(v3, events, 3).None? && StreamError(v2, events, 2).None? && StreamError(v1, events, 1).None?;
  }

  // A faultless stream that nothing interrupts is taken to its end.
  lemma {:induction false} Undisturbed(v: StepView, step: nat, events: seq<ModelEvent>, j: nat, env: Environment)
    requires j <= |events| && StreamError(v, events, j).None? && forall p :: env.interrupt(p).None?
    ensures EventsFrom(v, step, events, j, env) == (|events|, None)
    decreases |events| - j
  {
    if j < |events| { Undisturbed(ObserveEvent(v, events[j]).0, step, events, j + 1, env); }
  }

  // ---- The loop itself ----

  // Streams one model step into the session: completed items are appended as they arrive;
  // text that was streamed but never completed becomes messages when nothing was completed.
  method StreamStep(session: ThreadSession, step: nat, env: Environment)
    returns (error: Option<RunError>, completed: seq<Item>)
    modifies session
    ensures (completed, error) == Streamed(old(session.history), step, env)
    ensures session.history == old(session.history) + completed
  {
    var texts: Texts;
    error, completed, texts := StreamEvents(session, step, env);
    if error.None? && completed == [] {
      assert session.history == old(session.history);
      error, completed := AppendFallback(session, step, env.order(step, texts), texts, env);
    }
  }

  method StreamEvents(session: ThreadSession, step: nat, env: Environment)
    returns (error: Option<RunError>, completed: seq<Item>, texts: Texts)
    modifies session
    ensures var (n, stop) := EventsFrom(StartView(old(session.history)), step, env.stream(step), 0, env);
            completed == CompletedItems(env.stream(step)[..n]) && error == stop
    ensures error.None? ==> texts == TextsOf(env.stream(step))
    ensures session.history == old(session.history) + completed
  {
    completed, texts := [], map[];
    ghost var before := session.history;
    var events := env.stream(step);
    var state := new ModelStepState(session.history);
    for k := 0 to |events|
      modifies session, state
      invariant session.history == before + completed
      invariant completed == CompletedItems(events[..k]) && texts == TextsOf(events[..k])
      invariant EventsFrom(StartView(before), step, events, 0, env) == EventsFrom(state.View(), step, events, k, env)
    {
      CompletedNext(events, k);
      error := env.interrupt(BeforeEvent(step, k));
      if error.Some? { return; }
      var invalid := state.Observe(events[k]);
      if invalid.Some? { return Some(InvalidEvent(invalid.value)), completed, texts; }
      texts := TextsAfter(texts, events[k]);
      if events[k].ItemCompleted? {
        completed := completed + [events[k].item];
        session.AppendItem(events[k].item);
      }
      error := env.interrupt(AfterEvent(step, k));
      if error.Some? { return; }
    }
    assert events[..|events|] == events;
    error := env.interrupt(BeforeEvent(step, |events|));
    if error.None? && !state.finished { error := Some(UnexpectedEnd); }
  }

  method AppendFallback(session: ThreadSession, step: nat, ids: seq<string>, texts: Texts, env: Environment)
    returns (error: Option<RunError>, completed: seq<Item>)
    modifies session
    ensures var (n, stop) := FallbackFrom(step, ids, texts, 0, env);
            completed == FallbackItems(ids[..n], texts) && error == stop
    ensures session.history == old(session.history) + completed
  {
    error, completed := None, [];
    ghost var before := session.history;
    for k := 0 to |ids|
      invariant session.history == before + completed && completed == FallbackItems(ids[..k], texts)
      invariant FallbackFrom(step, ids, texts, 0, env) == FallbackFrom(step, ids, texts, k, env)
    {
      assert ids[..k + 1][..k] == ids[..k];
      if Speaks(ids[k], texts) {
        var item := AssistantMessage(ids[k], [Text(texts[ids[k]].0)], texts[ids[k]].1);
        completed := completed + [item];
        session.AppendItem(item);
        error := env.interrupt(AfterFallback(step, k));
        if error.Some? { return; }
      }
    }
    assert ids[..|ids|] == ids;
    error := None;
  }

  method AppendResults(session: ThreadSession, step: nat, results: seq<Item>, env: Environment)
    returns (error: Option<RunError>, n: nat)
    modifies session
    ensures (n, error) == ResultsFrom(step, |results|, 0, env)
    ensures session.history == old(session.history) + results[..n]
  {
    ghost var before := session.history;
    for k := 0 to |results|
      invariant session.history == before + results[..k]
      invariant ResultsFrom(step, |results|, 0, env) == ResultsFrom(step, |results|, k, env)
    {
      assert results[..k + 1] == results[..k] + [results[k]];
      session.AppendItem(results[k]);
      error := env.interrupt(AfterResult(step, k));
      if error.Some? {
        n := k + 1;
        return;
      }
    }
    error, n := None, |results|;
  }

  // One iteration of the step loop.
  method RunStep(session: ThreadSession, step: nat, env: Environment)
    returns (error: Option<RunError>, taken: Taken)
    modifies session
    ensures (taken, error) == TakeStep(old(session.history), step, env)
    ensures session.history == old(session.history) + taken.Items(step, env)
  {
    taken := Taken([], 0);
    NoAnswers([], step, env);
    error := env.interrupt(BeforeStep(step));
    if error.Some? { return; }
    var completed: seq<Item>;
    error, completed := StreamStep(session, step, env);
    taken := Taken(completed, 0);
    NoAnswers(completed, step, env);
    if error.Some? { return; }
    error := env.interrupt(AfterStream(step));
    if error.Some? || taken.Calls() == [] { return; }
    error := env.interrupt(BeforeCalls(step));
    if error.Some? { return; }
    var n: nat;
    error, n := AppendResults(session, step, Execute(taken.Calls(), step, env), env);
    taken := Taken(completed, n);
  }

  lemma NoAnswers(completed: seq<Item>, step: nat, env: Environment)
    ensures Taken(completed, 0).Items(step, env) == completed
  {
  }

  // The steps taken and those still to come, from the history the loop has reached.
  ghost predicate Underway(h: seq<Item>, steps: seq<Taken>, now: seq<Item>, maxSteps: nat, env: Environment)
    requires |steps| < maxSteps
  {
    var (rest, stop) := TakeSteps(now, |steps|, maxSteps, env);
    now == h + RunItems(steps, 0, env) && TakeSteps(h, 0, maxSteps, env) == (steps + rest, stop)
  }

  // The step loop: a step without calls ends the run, and the last step allowed cannot go on.
  method RunSteps(session: ThreadSession, maxSteps: nat, env: Environment)
    returns (error: Option<RunError>, ghost steps: seq<Taken>)
    requires 0 < maxSteps
    modifies session
    ensures (steps, error) == TakeSteps(old(session.history), 0, maxSteps, env)
    ensures session.history == old(session.history) + RunItems(steps, 0, env)
  {
    ghost var h := session.history;
    assert [] + TakeSteps(h, 0, maxSteps, env).0 == TakeSteps(h, 0, maxSteps, env).0 && h + [] == h;
    var step := 0;
    steps := [];
    while true
      invariant |steps| == step < maxSteps && Underway(h, steps, session.history, maxSteps, env)
      decreases maxSteps - step
    {
      UnderwayNext(h, steps, session.history, maxSteps, env);
      var taken;
      error, taken := RunStep(session, step, env);
      steps := steps + [taken];
      if error.Some? || taken.Calls() == [] { return; }
      if step + 1 >= maxSteps { return Some(MaxStepsExceeded(maxSteps)), steps; }
      step := step + 1;
    }
  }

  lemma UnderwayNext(h: seq<Item>, steps: seq<Taken>, now: seq<Item>, maxSteps: nat, env: Environment)
    requires |steps| < maxSteps && Underway(h, steps, now, maxSteps, env)
    ensures var (taken, error) := TakeStep(now, |steps|, env);
            var more := steps + [taken];
            && now + taken.Items(|steps|, env) == h + RunItems(more, 0, env)
            && if error.Some? || taken.Calls() == [] then TakeSteps(h, 0, maxSteps, env) == (more, error)
               else if |more| >= maxSteps then
                 TakeSteps(h, 0, maxSteps, env) == (more, Some(MaxStepsExceeded(maxSteps)))
               else Underway(h, more, now + taken.Items(|steps|, env), maxSteps, env)
  {
    var (taken, error) := TakeStep(now, |steps|, env);
    var (rest, stop) := TakeSteps(now, |steps|, maxSteps, env);
    FirstOfSteps(now, |steps|, maxSteps, env);
    assert now + taken.Items(|steps|, env) == h + RunItems(steps + [taken], 0, env) by {
      StepJoins(h, steps, taken, now, env);
    }
    assert steps + rest == steps + [taken] + rest[1..] by { StepsSnoc(steps, rest); }
    if |rest| == 1 { assert steps + rest == steps + [taken]; }
  }

  lemma StepJoins(h: seq<Item>, steps: seq<Taken>, taken: Taken, now: seq<Item>, env: Environment)
    requires now == h + RunItems(steps, 0, env)
    ensures now + taken.Items(|steps|, env) == h + RunItems(steps + [taken], 0, env)
  {
    RunItemsSnoc(steps, taken, 0, env);
    AssocHistory(h, RunItems(steps, 0, env), taken.Items(|steps|, env), now);
  }

  lemma AssocHistory(h: seq<Item>, a: seq<Item>, b: seq<Item>, now: seq<Item>)
    requires now == h + a
    ensures now + b == h + (a + b)
  {
  }

  lemma StepsSnoc(steps: seq<Taken>, rest: seq<Taken>)
    requires rest != []
    ensures steps + rest == steps + [rest[0]] + rest[1..]
    ensures |rest| == 1 ==> steps + rest == steps + [rest[0]]
  {
  }

  lemma {:induction false} RunItemsSnoc(steps: seq<Taken>, taken: Taken, first: nat, env: Environment)
    ensures RunItems(steps + [taken], first, env) == RunItems(steps, first, env) + taken.Items(first + |steps|, env)
    decreases |steps|
  {
    if steps == [] {
      assert [taken][1..] == [] && taken.Items(first, env) + [] == taken.Items(first, env);
    } else {
      assert (steps + [taken])[1..] == steps[1..] + [taken];
      RunItemsSnoc(steps[1..], taken, first + 1, env);
    }
  }

  method AppendInput(session: ThreadSession, input: seq<Item>, env: Environment)
    returns (error: Option<RunError>, given: nat)
    modifies session
    ensures (given, error) == InputFrom(|input|, 0, env)
    ensures session.history == old(session.history) + input[..given]
  {
    ghost var h := session.history;
    for k := 0 to |input|
      invariant session.history == h + input[..k]
      invariant InputFrom(|input|, 0, env) == InputFrom(|input|, k, env)
    {
      assert input[..k + 1] == input[..k] + [input[k]];
      session.AppendItem(input[k]);
      error := env.interrupt(AfterInput(k));
      if error.Some? {
        given := k + 1;
        return;
      }
    }
    error, given := None, |input|;
  }

  // run_inner: the input, then model steps until one makes no call.
  method RunInner(session: ThreadSession, input: seq<Item>, maxSteps: nat, env: Environment)
    returns (error: Option<RunError>, ghost ran: Ran)
    modifies session
    ensures ran == Run(old(session.history), input, maxSteps, env) && ran.error == error
    ensures session.history == old(session.history) + RunAppends(ran, input, env)
  {
    ghost var h := session.history;
    assert h + (input[..0] + []) == h;
    if maxSteps == 0 { return Some(MaxStepsExceeded(0)), Ran(0, [], Some(MaxStepsExceeded(0))); }
    error := env.interrupt(Admission);
    ran := Ran(0, [], error);
    if error.Some? { return; }
    var given;
    error, given := AppendInput(session, input, env);
    ran := Ran(given, [], error);
    assert input[..given] + [] == input[..given];
    if error.Some? { return; }
    assert input[..given] == input;
    ghost var steps;
    error, steps := RunSteps(session, maxSteps, env);
    ran := Ran(given, steps, error);
    AssocHistory(h, input, RunItems(steps, 0, env), h + input);
  }

  // run_turn_with_context: what it returns and appends is what the environment makes of the
  // session's history, and a run that fails closes the calls it leaves unanswered.
  method RunTurn(session: ThreadSession, input: seq<Item>, maxSteps: nat, env: Environment)
    returns (error: Option<RunError>, ghost ran: Ran)
    requires forall i | 0 <= i < |input| :: IsMessage(input[i])
    modifies session
    ensures ran == Run(old(session.history), input, maxSteps, env) && error == ran.error
    ensures session.history == HistoryAfter(old(session.history), input, maxSteps, env)
    ensures Accepts(old(session.history)) ==> (Accepts(session.history) <==> StepsCallLast(ran.steps))
  {
    var historyStart := |session.history|;
    ghost var h := session.history;
    error, ran := RunInner(session, input, maxSteps, env);
    ghost var appended := RunAppends(ran, input, env);
    var completed := error.None?;
    if completed {
      assert h + appended + [] == h + appended;
    } else {
      assert (h + appended)[historyStart..] == appended;
      var closing := session.CloseUnansweredToolCalls(historyStart, env.closingId);
      CloseAgain(session, h, appended, historyStart, env.closingId);
    }
    if Accepts(h) { RunIsLegal(h, input, maxSteps, env); }
  }

  // The history guard is dropped after a failed run and closes again, which appends nothing.
  method CloseAgain(session: ThreadSession, ghost h: seq<Item>, ghost appended: seq<Item>, historyStart: nat,
                    newId: nat -> string)
    requires historyStart == |h| && session.history == h + appended + Closing(Unanswered(appended), newId)
    modifies session
    ensures session.history == old(session.history)
  {
    ghost var closing := Closing(Unanswered(appended), newId);
    assert session.history[historyStart..] == appended + closing;
    assert Unanswered(appended) + [] == Unanswered(appended);
    ClosingIsFinal(appended, Unanswered(appended), [], newId);
    var again := session.CloseUnansweredToolCalls(historyStart, newId);
    assert again == [];
  }
}
