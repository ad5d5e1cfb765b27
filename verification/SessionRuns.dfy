// Whole sessions: one run after another, each stopped anywhere, and what the provider
// adapters make of every history that a run hands to them.
module SessionRuns {
  import opened Conversation
  import opened Context
  import opened EngineRuns
  import AnthropicWire
  import ChatWire

  // A run's input, its step limit, and everything it does not control.
  datatype Turn = Turn(input: seq<Item>, maxSteps: nat, env: Environment) {
    predicate Valid() {
      forall i | 0 <= i < |input| :: IsMessage(input[i])
    }
  }

  function History(turns: seq<Turn>): seq<Item> {
    if turns == [] then []
    else
      var last := turns[|turns| - 1];
      HistoryAfter(History(turns[..|turns| - 1]), last.input, last.maxSteps, last.env)
  }

  // No model step of any run has put text or reasoning after a tool call.
  predicate CallsLastThroughout(turns: seq<Turn>) {
    turns != [] ==>
      var init, last := turns[..|turns| - 1], turns[|turns| - 1];
      CallsLastThroughout(init) && StepsCallLast(Run(History(init), last.input, last.maxSteps, last.env).steps)
  }

  // A session of any number of runs, however they end, has a legal history exactly when no step of
  // theirs has put a message after a call; one that has spoils every later history.
  lemma {:induction false} SessionIsLegal(turns: seq<Turn>)
    requires forall turn | turn in turns :: turn.Valid()
    ensures Accepts(History(turns)) <==> CallsLastThroughout(turns)
    ensures Scan(History(turns)).Ok? ==> Accepts(History(turns))
  {
    if turns != [] {
      var init, last := turns[..|turns| - 1], turns[|turns| - 1];
      var h := History(init);
      SessionIsLegal(init);
      assert last in turns;
      if Accepts(h) {
        RunIsLegal(h, last.input, last.maxSteps, last.env);
      } else {
        var ran := Run(h, last.input, last.maxSteps, last.env);
        ScanErrorStays(h, RunAppends(ran, last.input, last.env));
        ScanErrorStays(h + RunAppends(ran, last.input, last.env), RunCloses(ran, last.input, last.env));
      }
    }
  }

  // The engine asks the context policy and validates what it makes of the history before every step.
  ghost predicate Validates(h: seq<Item>, turn: Turn) {
    forall k | 0 <= k < |Run(h, turn.input, turn.maxSteps, turn.env).steps| ::
      !Accepts(StepHistory(h, turn.input, turn.maxSteps, turn.env, k)) ==> turn.env.interrupt(BeforeStep(k)).Some?
  }

  // So a step that puts a message after a call is the last one to ask the provider for anything.
  lemma MisorderedStepEndsRun(h: seq<Item>, turn: Turn, k: nat)
    requires Accepts(h) && turn.Valid() && Validates(h, turn)
    requires var steps := Run(h, turn.input, turn.maxSteps, turn.env).steps;
             k + 1 < |steps| && !Engine.CallsLast(steps[k].completed)
    ensures var ran := Run(h, turn.input, turn.maxSteps, turn.env);
            && ran.steps[k + 1] == Taken([], 0) && |ran.steps| == k + 2
            && ran.error == turn.env.interrupt(BeforeStep(k + 1)) && ran.error.Some?
  {
    var steps := Run(h, turn.input, turn.maxSteps, turn.env).steps;
    StepHistoryIsLegal(h, turn.input, turn.maxSteps, turn.env, k + 1);
    assert steps[..k + 1][k] == steps[k];
  }

  // What a context policy makes of a history: all of it, or its tail from a user message on.
  ghost predicate Projects(history: seq<Item>, items: seq<Item>) {
    items == history || exists j | 0 <= j < |UserStarts(history)| :: TailFrom(history, j, items)
  }

  predicate TailFrom(history: seq<Item>, j: nat, items: seq<Item>)
    requires j < |UserStarts(history)|
  {
    UserStarts(history)[j] <= |history| && items == history[UserStarts(history)[j]..]
  }

  // Both adapters pair every tool call with its one answer.
  ghost predicate PairedOnBothWires(items: seq<Item>) {
    && (forall codec :: AnthropicWire.Paired(AnthropicWire.Messages(items, codec)))
    && forall start, render ::
      ChatWire.PairedRendering(items, start, ChatWire.Render(items, start, render).messages, render)
  }

  lemma AcceptedIsPaired(items: seq<Item>)
    requires Accepts(items)
    ensures PairedOnBothWires(items)
  {
    forall codec ensures AnthropicWire.Paired(AnthropicWire.Messages(items, codec)) {
      AnthropicWire.AcceptedIsPaired(items, codec);
    }
    forall start, render
      ensures ChatWire.PairedRendering(items, start, ChatWire.Render(items, start, render).messages, render)
    {
      ChatWire.AcceptedIsPaired(items, start, render);
    }
  }

  // Any request that any step of any run of a session makes is paired on both wires, as long as no
  // earlier step has put a message after a call.
  lemma RequestIsPaired(turns: seq<Turn>, turn: Turn, k: nat, items: seq<Item>)
    requires turn.Valid() && forall t | t in turns :: t.Valid()
    requires var ran := Run(History(turns), turn.input, turn.maxSteps, turn.env);
             CallsLastThroughout(turns) && k < |ran.steps| && StepsCallLast(ran.steps[..k])
    requires Projects(StepHistory(History(turns), turn.input, turn.maxSteps, turn.env, k), items)
    ensures Accepts(items) && PairedOnBothWires(items)
  {
    var h := History(turns);
    var now := StepHistory(h, turn.input, turn.maxSteps, turn.env, k);
    SessionIsLegal(turns);
    StepHistoryIsLegal(h, turn.input, turn.maxSteps, turn.env, k);
    if items != now {
      var j :| 0 <= j < |UserStarts(now)| && TailFrom(now, j, items);
      CutIsLegal(now, j);
    }
    AcceptedIsPaired(items);
  }

  predicate WellOrdered(turn: Turn) {
    forall k | 0 <= k < turn.maxSteps :: Engine.CallsLast(StepOutput(k, turn.env))
  }

  // With providers whose steps put their calls last, every history of a session is paired ...
  lemma {:induction false} WellOrderedSession(turns: seq<Turn>)
    requires forall turn | turn in turns :: turn.Valid() && WellOrdered(turn)
    ensures CallsLastThroughout(turns) && Accepts(History(turns)) && PairedOnBothWires(History(turns))
  {
    if turns != [] {
      var init, last := turns[..|turns| - 1], turns[|turns| - 1];
      WellOrderedSession(init);
      assert last in turns;
      WellOrderedProvider(History(init), last.input, last.maxSteps, last.env);
      RunIsLegal(History(init), last.input, last.maxSteps, last.env);
    }
    AcceptedIsPaired(History(turns));
  }

  // ... and so is every request of every run.
  lemma EveryRequestIsPaired(turns: seq<Turn>, turn: Turn, k: nat, items: seq<Item>)
    requires turn.Valid() && WellOrdered(turn) && forall t | t in turns :: t.Valid() && WellOrdered(t)
    requires k < |Run(History(turns), turn.input, turn.maxSteps, turn.env).steps|
    requires Projects(StepHistory(History(turns), turn.input, turn.maxSteps, turn.env, k), items)
    ensures Accepts(items) && PairedOnBothWires(items)
  {
    var h := History(turns);
    var steps := Run(h, turn.input, turn.maxSteps, turn.env).steps;
    WellOrderedSession(turns);
    RunStepwise(h, turn.input, turn.maxSteps, turn.env);
    StepwiseCallsLast(steps, 0, turn.maxSteps, turn.env);
    RequestIsPaired(turns, turn, k, items);
  }
}
