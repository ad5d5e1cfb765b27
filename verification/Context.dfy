// The tool structure a model-visible conversation must have, and the policies
// that project a session history onto one.
module Context {
  import opened Basics
  import opened Conversation

  datatype ContextError =
    | EmptyCallId(index: nat)
    | DuplicateCallId(callId: string)
    | BatchUnanswered(callId: string)
    | OrphanResult(index: nat, callId: string)
    | BatchInterrupted(index: nat)
    | CallsUnanswered(calls: set<string>)

  // The validator's running state.
  datatype ScanState = ScanState(seen: set<string>, pending: set<string>, resultsStarted: bool)

  function Observe(s: ScanState, index: nat, x: Item): Result<ScanState, ContextError> {
    match x
    case ToolCall(_, callId, _, _, _, _) =>
      if callId == [] then Err(EmptyCallId(index))
      else if callId in s.seen then Err(DuplicateCallId(callId))
      else if s.resultsStarted && s.pending != {} then Err(BatchUnanswered(callId))
      else Ok(ScanState(s.seen + {callId}, s.pending + {callId}, false))
    case ToolResult(_, callId, _, _) =>
      if callId !in s.pending then Err(OrphanResult(index, callId))
      else Ok(ScanState(s.seen, s.pending - {callId}, s.pending - {callId} != {}))
    case _ =>
      if s.pending != {} then Err(BatchInterrupted(index))
      else Ok(ScanState(s.seen, {}, false))
  }

  function Scan(items: seq<Item>): Result<ScanState, ContextError> {
    if items == [] then Ok(ScanState({}, {}, false))
    else
      match Scan(Init(items))
      case Err(e) => Err(e)
      case Ok(s) => Observe(s, |items| - 1, Last(items))
  }

  // What validate_items answers: no error, or the first one.
  function Verdict(items: seq<Item>): Option<ContextError> {
    match Scan(items)
    case Err(e) => Some(e)
    case Ok(s) => if s.pending == {} then None else Some(CallsUnanswered(s.pending))
  }

  predicate Accepts(items: seq<Item>) {
    Verdict(items).None?
  }

  lemma ScanAppend(items: seq<Item>, x: Item)
    ensures Scan(items + [x]) == match Scan(items) case Err(e) => Err(e) case Ok(s) => Observe(s, |items|, x)
  {
    Snoc(items, x);
  }

  // A rejected prefix is never repaired by what follows.
  lemma {:induction false} ScanErrorStays(a: seq<Item>, b: seq<Item>)
    requires Scan(a).Err?
    ensures Scan(a + b).Err?
  {
    if b == [] {
      assert a + b == a;
    } else {
      ScanErrorStays(a, Init(b));
      assert Init(a + b) == a + Init(b);
    }
  }

  // The scan goes on to the next item, or ends with the verdict.
  lemma ScanNext(items: seq<Item>, index: nat, s: ScanState)
    requires index < |items| && Scan(items[..index]) == Ok(s)
    ensures match Observe(s, index, items[index])
            case Ok(next) => Scan(items[..index + 1]) == Ok(next)
            case Err(e) => Verdict(items) == Some(e)
  {
    assert items[..index + 1] == items[..index] + [items[index]];
    ScanAppend(items[..index], items[index]);
    if Observe(s, index, items[index]).Err? { VerdictOfPrefix(items, index + 1); }
  }

  method ValidateItems(items: seq<Item>) returns (error: Option<ContextError>)
    ensures error == Verdict(items)
  {
    var seen: set<string>, pending: set<string>, resultsStarted := {}, {}, false;
    for index := 0 to |items|
      invariant Scan(items[..index]) == Ok(ScanState(seen, pending, resultsStarted))
    {
      var item := items[index];
      ScanNext(items, index, ScanState(seen, pending, resultsStarted));
      match item {
        case ToolCall(_, callId, _, _, _, _) =>
          if callId == [] { return Some(EmptyCallId(index)); }
          if callId in seen { return Some(DuplicateCallId(callId)); }
          seen := seen + {callId};
          if resultsStarted && pending != {} { return Some(BatchUnanswered(callId)); }
          pending := pending + {callId};
          resultsStarted := false;
        case ToolResult(_, callId, _, _) =>
          if callId !in pending { return Some(OrphanResult(index, callId)); }
          pending := pending - {callId};
          resultsStarted := pending != {};
        case _ =>
          if pending != {} { return Some(BatchInterrupted(index)); }
          resultsStarted := false;
      }
    }
    assert items[..|items|] == items;
    if pending != {} {
      return Some(CallsUnanswered(pending));
    }
    return None;
  }

  lemma {:induction false} VerdictOfPrefix(items: seq<Item>, n: nat)
    requires n <= |items| && Scan(items[..n]).Err?
    ensures Scan(items) == Scan(items[..n])
    decreases |items|
  {
    if n == |items| {
      assert items[..n] == items;
    } else {
      var m := |items| - 1;
      assert items[..m][..n] == items[..n];
      VerdictOfPrefix(items[..m], n);
    }
  }

  // ---- The structure acceptance stands for ----

  // A legal conversation is a list of messages and answered call batches.
  datatype Block = Message(item: Item) | Batch(calls: seq<Item>, results: seq<Item>)

  ghost predicate ValidBatch(calls: seq<Item>, results: seq<Item>) {
    && calls != [] && AllCalls(calls) && AllResults(results)
    && [] !in Ids(calls)
    && NoRepeats(calls) && NoRepeats(results)
    && Ids(results) == Ids(calls)
  }

  ghost predicate ValidBlock(b: Block) {
    match b
    case Message(x) => IsMessage(x)
    case Batch(calls, results) => ValidBatch(calls, results)
  }

  function BlockItems(b: Block): seq<Item> {
    match b
    case Message(x) => [x]
    case Batch(calls, results) => calls + results
  }

  function Flatten(bs: seq<Block>): seq<Item> {
    if bs == [] then [] else Flatten(bs[..|bs| - 1]) + BlockItems(bs[|bs| - 1])
  }

  ghost predicate ValidBlocks(bs: seq<Block>) {
    forall i | 0 <= i < |bs| :: ValidBlock(bs[i])
  }

  ghost predicate Conversational(items: seq<Item>) {
    exists bs :: ValidBlocks(bs) && Flatten(bs) == items && UniqueCalls(items)
  }

  ghost predicate FreshCalls(calls: seq<Item>, seen: set<string>) {
    AllCalls(calls) && NoRepeats(calls) && Ids(calls) !! seen && [] !in Ids(calls)
  }

  // Appending a batch of fresh calls to a history with nothing pending.
  lemma {:induction false} ScanCalls(h: seq<Item>, calls: seq<Item>)
    requires Scan(h).Ok? && Scan(h).value.pending == {} && FreshCalls(calls, Scan(h).value.seen)
    ensures Scan(h + calls).Ok?
    ensures Scan(h + calls).value.seen == Scan(h).value.seen + Ids(calls)
    ensures Scan(h + calls).value.pending == Ids(calls)
    ensures calls != [] ==> !Scan(h + calls).value.resultsStarted
  {
    if calls == [] {
      assert h + calls == h;
    } else {
      assert Init(h + calls) == h + Init(calls);
      assert CallOf(Last(calls)) in Ids(calls);
      ScanCalls(h, Init(calls));
    }
  }

  // Appending results for distinct pending calls.
  lemma {:induction false} ScanResults(h: seq<Item>, results: seq<Item>)
    requires Scan(h).Ok? && AllResults(results) && NoRepeats(results)
    requires Ids(results) <= Scan(h).value.pending
    ensures Scan(h + results).Ok?
    ensures Scan(h + results).value.seen == Scan(h).value.seen
    ensures Scan(h + results).value.pending == Scan(h).value.pending - Ids(results)
  {
    if results == [] {
      assert h + results == h;
      return;
    }
    assert Init(h + results) == h + Init(results);
    ScanResults(h, Init(results));
  }

  lemma {:induction false} SeenIsCallIds(items: seq<Item>)
    requires Scan(items).Ok?
    ensures Scan(items).value.seen == CallIds(items)
    ensures Scan(items).value.pending <= CallIds(items)
    ensures UniqueCalls(items)
  {
    if items != [] { SeenIsCallIds(Init(items)); }
  }

  lemma ScanBatch(h: seq<Item>, calls: seq<Item>, results: seq<Item>)
    requires Scan(h).Ok? && Scan(h).value.pending == {}
    requires ValidBatch(calls, results) && UniqueCalls(h + (calls + results))
    ensures Scan(h + (calls + results)).Ok? && Scan(h + (calls + results)).value.pending == {}
  {
    BatchIsFresh(h, calls, results);
    ScanCalls(h, calls);
    ScanResults(h + calls, results);
    assert h + (calls + results) == h + calls + results;
  }

  lemma BatchIsFresh(h: seq<Item>, calls: seq<Item>, results: seq<Item>)
    requires Scan(h).Ok? && ValidBatch(calls, results) && UniqueCalls(h + (calls + results))
    ensures FreshCalls(calls, Scan(h).value.seen)
  {
    SeenIsCallIds(h);
    CallIdsConcat(h, calls + results);
    CallIdsConcat(calls, results);
    CallIdsOfRun(calls);
  }

  lemma {:induction false} BlocksAccepted(bs: seq<Block>)
    requires ValidBlocks(bs) && UniqueCalls(Flatten(bs))
    ensures Scan(Flatten(bs)).Ok? && Scan(Flatten(bs)).value.pending == {}
  {
    if bs == [] { return; }
    var n := |bs| - 1;
    var h := Flatten(bs[..n]);
    CallIdsConcat(h, BlockItems(bs[n]));
    BlocksAccepted(bs[..n]);
    match bs[n] {
      case Message(x) => ScanAppend(h, x);
      case Batch(calls, results) => ScanBatch(h, calls, results);
    }
  }

  // A batch that is still open: some of its calls are answered, not all.
  ghost predicate OpenBatch(s: ScanState, calls: seq<Item>, results: seq<Item>) {
    && AllCalls(calls) && AllResults(results) && [] !in Ids(calls)
    && NoRepeats(calls) && NoRepeats(results) && Ids(results) <= Ids(calls)
    && s.pending == Ids(calls) - Ids(results)
    && (s.pending == {} ==> calls == [] && results == [])
    && (s.resultsStarted <==> results != [])
  }

  lemma OpenAddsCall(h: seq<Item>, calls: seq<Item>, results: seq<Item>, x: Item)
    requires x.ToolCall? && Scan(h + calls + results).Ok? && Scan(h + calls + results + [x]).Ok?
    requires OpenBatch(Scan(h + calls + results).value, calls, results)
    ensures results == [] && OpenBatch(Scan(h + calls + results + [x]).value, calls + [x], [])
  {
    var items := h + calls + results;
    ScanAppend(items, x);
    SeenIsCallIds(items);
    CallIdsConcat(h + calls, results);
    CallIdsConcat(h, calls);
    CallIdsOfRun(calls);
    Snoc(calls, x);
  }

  lemma OpenAddsResult(s: ScanState, s': ScanState, calls: seq<Item>, results: seq<Item>, x: Item, index: nat)
    requires x.ToolResult? && Observe(s, index, x) == Ok(s') && OpenBatch(s, calls, results)
    ensures s'.pending == {} ==> ValidBatch(calls, results + [x]) && !s'.resultsStarted
    ensures s'.pending != {} ==> OpenBatch(s', calls, results + [x])
  {
    Snoc(results, x);
  }

  // Every history the scan has not rejected is a list of legal blocks followed by
  // at most one batch that is still being answered.
  lemma {:induction false} Decompose(items: seq<Item>)
    returns (bs: seq<Block>, calls: seq<Item>, results: seq<Item>)
    requires Scan(items).Ok?
    ensures ValidBlocks(bs)
    ensures items == Flatten(bs) + calls + results
    ensures OpenBatch(Scan(items).value, calls, results)
  {
    if items == [] { return [], [], []; }
    var x := Last(items);
    Unsnoc(items);
    bs, calls, results := Decompose(Init(items));
    BlockConcat(Flatten(bs), calls, results, x);
    if x.ToolCall? {
      OpenAddsCall(Flatten(bs), calls, results, x);
      return bs, calls + [x], [];
    }
    if x.ToolResult? {
      OpenAddsResult(Scan(Init(items)).value, Scan(items).value, calls, results, x, |items| - 1);
      if Scan(items).value.pending != {} {
        return bs, calls, results + [x];
      }
      FlattenAppend(bs, Batch(calls, results + [x]));
      return bs + [Batch(calls, results + [x])], [], [];
    }
    FlattenAppend(bs, Message(x));
    return bs + [Message(x)], [], [];
  }

  lemma BlockConcat(a: seq<Item>, b: seq<Item>, c: seq<Item>, x: Item)
    ensures a + b + c + [x] == a + b + (c + [x]) == a + (b + (c + [x]))
    ensures c == [] ==> a + b + c + [x] == a + (b + [x]) + []
    ensures b == [] && c == [] ==> a + b + c + [x] == a + [x]
    ensures a + (b + (c + [x])) + [] + [] == a + (b + (c + [x]))
    ensures a + [x] + [] + [] == a + [x]
  {
  }

  lemma FlattenAppend(bs: seq<Block>, b: Block)
    ensures Flatten(bs + [b]) == Flatten(bs) + BlockItems(b)
    ensures ValidBlocks(bs) && ValidBlock(b) ==> ValidBlocks(bs + [b])
  {
    assert (bs + [b])[..|bs|] == bs;
  }

  // The validator accepts exactly the conversations built from messages and
  // batches in which every call gets one result before anything else follows.
  lemma AcceptsIffConversational(items: seq<Item>)
    ensures Accepts(items) <==> Conversational(items)
  {
    if Accepts(items) {
      var bs, calls, results := Decompose(items);
      SeenIsCallIds(items);
      assert Flatten(bs) == items;
    }
    if Conversational(items) {
      var bs :| ValidBlocks(bs) && Flatten(bs) == items && UniqueCalls(items);
      BlocksAccepted(bs);
    }
  }

  // ---- The recent-turns policy ----

  function UserStarts(items: seq<Item>): seq<nat> {
    if items == [] then []
    else
      var n := |items| - 1;
      UserStarts(items[..n]) + if items[n].UserMessage? then [n] else []
  }

  lemma {:induction false} UserStartsMeaning(items: seq<Item>)
    ensures forall j | 0 <= j < |UserStarts(items)| ::
              UserStarts(items)[j] < |items| && items[UserStarts(items)[j]].UserMessage?
    ensures forall i, j | 0 <= i < j < |UserStarts(items)| :: UserStarts(items)[i] < UserStarts(items)[j]
  {
    if items != [] { UserStartsMeaning(items[..|items| - 1]); }
  }

  // Cutting before the j-th user message leaves the messages from the j-th on.
  lemma {:induction false} UserStartsOfSuffix(items: seq<Item>, start: nat)
    requires start <= |items|
    ensures |UserStarts(items[start..])| == |UserStarts(items)| - |UserStarts(items[..start])|
    decreases |items|
  {
    if start == |items| {
      assert items[..start] == items;
    } else {
      var n := |items| - 1;
      assert items[..n][start..] == items[start..][..n - start];
      assert items[..n][..start] == items[..start];
      UserStartsOfSuffix(items[..n], start);
    }
  }

  lemma {:induction false} UserStartsOfPrefix(items: seq<Item>, j: nat)
    requires j < |UserStarts(items)|
    ensures UserStarts(items)[j] < |items|
    ensures |UserStarts(items[..UserStarts(items)[j]])| == j
    decreases |items|
  {
    UserStartsMeaning(items);
    var n := |items| - 1;
    if j < |UserStarts(items[..n])| {
      UserStartsOfPrefix(items[..n], j);
      assert items[..n][..UserStarts(items)[j]] == items[..UserStarts(items)[j]];
    }
  }

  // The scan of a remainder knows fewer call ids and agrees on the open batch.
  ghost predicate Within(t: ScanState, s: ScanState) {
    t.seen <= s.seen && t.pending == s.pending && (s.pending != {} ==> t.resultsStarted == s.resultsStarted)
  }

  lemma ObserveWithin(t: ScanState, s: ScanState, i: nat, j: nat, x: Item)
    requires Within(t, s) && Observe(s, j, x).Ok?
    ensures Observe(t, i, x).Ok? && Within(Observe(t, i, x).value, Observe(s, j, x).value)
  {
  }

  // A cut where nothing is pending leaves a legal remainder.
  lemma {:induction false} ScanSuffix(items: seq<Item>, start: nat)
    requires start <= |items| && Scan(items).Ok?
    requires Scan(items[..start]).Ok? && Scan(items[..start]).value.pending == {}
    ensures Scan(items[start..]).Ok? && Within(Scan(items[start..]).value, Scan(items).value)
    decreases |items|
  {
    if start == |items| {
      assert items[..start] == items;
    } else {
      var n := |items| - 1;
      assert items == items[..n] + [items[n]];
      ScanAppend(items[..n], items[n]);
      assert items[..n][..start] == items[..start];
      ScanSuffix(items[..n], start);
      assert items[start..] == items[..n][start..] + [items[n]];
      ScanAppend(items[..n][start..], items[n]);
      ObserveWithin(Scan(items[..n][start..]).value, Scan(items[..n]).value, n - start, n, items[n]);
    }
  }

  lemma {:induction false} ScanPrefix(items: seq<Item>, n: nat)
    requires n <= |items| && Scan(items).Ok?
    ensures Scan(items[..n]).Ok?
  {
    assert items[..n] + items[n..] == items;
    if Scan(items[..n]).Err? { ScanErrorStays(items[..n], items[n..]); }
  }

  // Cutting an accepted history before its j-th user message leaves an accepted one.
  lemma CutIsLegal(history: seq<Item>, j: nat)
    requires Accepts(history) && j < |UserStarts(history)|
    ensures var start := UserStarts(history)[j];
            && start < |history| && history[start].UserMessage? && Accepts(history[start..])
            && |UserStarts(history[start..])| == |UserStarts(history)| - j
  {
    var start := UserStarts(history)[j];
    UserStartsMeaning(history);
    UserStartsOfPrefix(history, j);
    UserStartsOfSuffix(history, start);
    NothingOpenAt(history, start);
    ScanSuffix(history, start);
  }

  lemma NothingOpenAt(history: seq<Item>, start: nat)
    requires Accepts(history) && start < |history| && history[start].UserMessage?
    ensures Scan(history[..start]).Ok? && Scan(history[..start]).value.pending == {}
  {
    ScanPrefix(history, start);
    ScanPrefix(history, start + 1);
    assert history[..start + 1] == history[..start] + [history[start]];
    ScanAppend(history[..start], history[start]);
  }

  datatype Projection = Projected(items: seq<Item>) | Rejected(error: ContextError)

  // validate_model_context on a projected item list.
  method Project(items: seq<Item>) returns (r: Projection)
    ensures r == match Verdict(items) case None => Projected(items) case Some(e) => Rejected(e)
  {
    var error := ValidateItems(items);
    r := match error case None => Projected(items) case Some(e) => Rejected(e);
  }

  method RecentTurns(history: seq<Item>, maxTurns: nat) returns (r: Projection)
    requires maxTurns > 0
    // The projection of an accepted history is never rejected: validating the cut again cannot fail.
    ensures r.Projected? <==> Accepts(history)
    ensures r.Rejected? ==> Some(r.error) == Verdict(history)
    ensures r.Projected? ==>
      && Accepts(r.items)
      && |r.items| <= |history| && r.items == history[|history| - |r.items|..]
      && |UserStarts(r.items)| == (if |UserStarts(history)| < maxTurns then |UserStarts(history)| else maxTurns)
    // Nothing is cut unless a user turn is; then the first item kept is a user message.
    ensures r.Projected? ==> if |UserStarts(history)| <= maxTurns then r.items == history
                             else r.items != [] && r.items[0].UserMessage?
  {
    var error := ValidateItems(history);
    if error.Some? { return Rejected(error.value); }
    var userStarts: seq<nat> := [];
    for index := 0 to |history|
      invariant userStarts == UserStarts(history[..index])
    {
      assert history[..index + 1][..index] == history[..index];
      if history[index].UserMessage? { userStarts := userStarts + [index]; }
    }
    assert history[..|history|] == history;
    var start := 0;
    if |userStarts| > maxTurns {
      CutIsLegal(history, |userStarts| - maxTurns);
      start := userStarts[|userStarts| - maxTurns];
    } else {
      assert history[start..] == history;
    }
    r := Project(history[start..]);
  }
}
