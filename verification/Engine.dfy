// A session's history: closing unanswered calls, and the laws of what a model step may append.
module Engine {
  import opened Basics
  import opened Conversation
  import opened Context

  const UNKNOWN_OUTCOME :=
    "No tool result was recorded before the run ended. The tool may have run or may still be running; " +
    "execution and external side effects are unknown. The call was not retried."

  // ---- Closing the calls a run leaves unanswered ----

  function RemoveFirst(ids: seq<string>, id: string): seq<string> {
    if ids == [] then []
    else if ids[0] == id then ids[1..]
    else [ids[0]] + RemoveFirst(ids[1..], id)
  }

  function Unanswered(items: seq<Item>): seq<string> {
    if items == [] then []
    else
      var before := Unanswered(Init(items));
      match Last(items)
      case ToolCall(_, callId, _, _, _, _) => before + [callId]
      case ToolResult(_, callId, _, _) => RemoveFirst(before, callId)
      case _ => before
  }

  function Closing(ids: seq<string>, newId: nat -> string): seq<Item> {
    if ids == [] then []
    else
      var n := |ids| - 1;
      Closing(ids[..n], newId) + [ToolResult(newId(n), ids[n], TextOutput(UNKNOWN_OUTCOME), true)]
  }

  method PositionOf(ids: seq<string>, id: string) returns (index: Option<nat>)
    ensures index.None? ==> id !in ids
    ensures index.Some? ==> index.value < |ids| && ids[index.value] == id && id !in ids[..index.value]
  {
    for k := 0 to |ids|
      invariant id !in ids[..k]
    {
      if ids[k] == id { return Some(k); }
    }
    return None;
  }

  lemma {:induction false} RemoveFirstAt(ids: seq<string>, k: nat)
    requires k < |ids| && ids[k] !in ids[..k]
    ensures RemoveFirst(ids, ids[k]) == ids[..k] + ids[k + 1..]
  {
    if k > 0 {
      assert ids[0] in ids[..k];
      assert ids[..k][1..] == ids[1..][..k - 1];
      RemoveFirstAt(ids[1..], k - 1);
    }
  }

  lemma {:induction false} RemoveFirstAbsent(ids: seq<string>, id: string)
    requires id !in ids
    ensures RemoveFirst(ids, id) == ids
  {
    if ids != [] { RemoveFirstAbsent(ids[1..], id); }
  }

  class ThreadSession {
    var history: seq<Item>

    constructor (history: seq<Item>)
      ensures this.history == history
    {
      this.history := history;
    }

    method AppendItem(item: Item)
      modifies this
      ensures history == old(history) + [item]
    {
      history := history + [item];
    }

    method CloseUnansweredToolCalls(historyStart: nat, newId: nat -> string) returns (results: seq<Item>)
      requires historyStart <= |history|
      modifies this
      ensures results == Closing(Unanswered(old(history)[historyStart..]), newId)
      ensures history == old(history) + results
    {
      var unanswered: seq<string> := [];
      var own := history[historyStart..];
      for k := 0 to |own|
        invariant history == old(history) && unanswered == Unanswered(own[..k])
      {
        assert Init(own[..k + 1]) == own[..k];
        match own[k] {
          case ToolCall(_, callId, _, _, _, _) =>
            unanswered := unanswered + [callId];
          case ToolResult(_, callId, _, _) =>
            var index := PositionOf(unanswered, callId);
            if index.Some? {
              RemoveFirstAt(unanswered, index.value);
              unanswered := unanswered[..index.value] + unanswered[index.value + 1..];
            } else {
              RemoveFirstAbsent(unanswered, callId);
            }
          case _ =>
        }
      }
      assert own[..|own|] == own;
      results := [];
      for k := 0 to |unanswered|
        invariant history == old(history) && results == Closing(unanswered[..k], newId)
      {
        assert unanswered[..k + 1][..k] == unanswered[..k];
        results := results + [ToolResult(newId(k), unanswered[k], TextOutput(UNKNOWN_OUTCOME), true)];
      }
      assert unanswered[..|unanswered|] == unanswered;
      history := history + results;
    }
  }

  lemma {:induction false} RemoveFirstSet(ids: seq<string>, id: string)
    requires Distinct(ids)
    ensures Distinct(RemoveFirst(ids, id)) && ToSet(RemoveFirst(ids, id)) == ToSet(ids) - {id}
  {
    if ids != [] {
      var tail := ids[1..];
      assert ids == [ids[0]] + tail;
      assert Distinct(tail) by {
        forall i, j | 0 <= i < j < |tail| ensures tail[i] != tail[j] { assert ids[i + 1] != ids[j + 1]; }
      }
      assert ids[0] !in tail;
      RemoveFirstSet(tail, id);
      var rest := RemoveFirst(tail, id);
      if ids[0] != id {
        assert ids[0] !in rest by { assert ids[0] !in ToSet(rest); }
        var r := [ids[0]] + rest;
        forall i, j | 0 <= i < j < |r| ensures r[i] != r[j] {
          if i == 0 { assert r[j] in rest; } else { assert rest[i - 1] != rest[j - 1]; }
        }
        assert ToSet(r) == {ids[0]} + ToSet(rest);
      }
      assert ToSet(ids) == {ids[0]} + ToSet(tail);
    }
  }

  // While the history is legal, the calls the closing scan finds are the calls the validator
  // still holds open.
  lemma {:induction false} UnansweredIsPending(h: seq<Item>, xs: seq<Item>)
    requires Accepts(h) && Scan(h + xs).Ok?
    ensures Distinct(Unanswered(xs)) && ToSet(Unanswered(xs)) == Scan(h + xs).value.pending
  {
    if xs == [] {
      assert h + xs == h;
    } else {
      assert Init(h + xs) == h + Init(xs) && Last(h + xs) == Last(xs);
      UnansweredIsPending(h, Init(xs));
      SeenHoldsPending(h + Init(xs));
      UnansweredNext(Unanswered(Init(xs)), Scan(h + Init(xs)).value, |h + xs| - 1, Last(xs));
    }
  }

  lemma UnansweredNext(ids: seq<string>, s: ScanState, index: nat, x: Item)
    requires Distinct(ids) && ToSet(ids) == s.pending && s.pending <= s.seen && Observe(s, index, x).Ok?
    ensures var next := if x.ToolCall? then ids + [x.callId]
                        else if x.ToolResult? then RemoveFirst(ids, x.callId) else ids;
            Distinct(next) && ToSet(next) == Observe(s, index, x).value.pending
  {
    if x.ToolCall? { DistinctAppend(ids, x.callId); }
    if x.ToolResult? { RemoveFirstSet(ids, x.callId); }
  }

  lemma SeenHoldsPending(items: seq<Item>)
    requires Scan(items).Ok?
    ensures Scan(items).value.pending <= Scan(items).value.seen
  {
    SeenIsCallIds(items);
  }

  lemma {:induction false} ClosingIds(ids: seq<string>, newId: nat -> string)
    ensures AllResults(Closing(ids, newId)) && IdList(Closing(ids, newId)) == ids
  {
    if ids != [] {
      var n := |ids| - 1;
      ClosingIds(ids[..n], newId);
      Snoc(Closing(ids[..n], newId), ToolResult(newId(n), ids[n], TextOutput(UNKNOWN_OUTCOME), true));
    }
  }

  // A closing result answers its call with an error that says the outcome is unknown.
  lemma {:induction false} ClosingAt(ids: seq<string>, newId: nat -> string, k: nat)
    requires k < |ids|
    ensures |Closing(ids, newId)| == |ids|
    ensures Closing(ids, newId)[k] == ToolResult(newId(k), ids[k], TextOutput(UNKNOWN_OUTCOME), true)
  {
    var n := |ids| - 1;
    if k < n { ClosingAt(ids[..n], newId, k); } else if n > 0 { ClosingAt(ids[..n], newId, 0); }
  }

  // Closing repairs exactly the histories the validator has not already rejected.
  lemma ClosingAccepts(h: seq<Item>, xs: seq<Item>, newId: nat -> string)
    requires Accepts(h)
    ensures Accepts(h + xs + Closing(Unanswered(xs), newId)) <==> Scan(h + xs).Ok?
  {
    var closing := Closing(Unanswered(xs), newId);
    if Scan(h + xs).Ok? {
      UnansweredIsPending(h, xs);
      ClosingIds(Unanswered(xs), newId);
      IdListMeaning(closing);
      ScanResults(h + xs, closing);
    } else {
      ScanErrorStays(h + xs, closing);
    }
  }

  // Closing a closed history appends nothing, whatever the history holds.
  lemma {:induction false} ClosingIsFinal(xs: seq<Item>, ids: seq<string>, rest: seq<string>, newId: nat -> string)
    requires Unanswered(xs) == ids + rest
    ensures Unanswered(xs + Closing(ids, newId)) == rest
  {
    if ids == [] {
      assert xs + [] == xs && [] + rest == rest;
    } else {
      var n := |ids| - 1;
      assert ids + rest == ids[..n] + ([ids[n]] + rest);
      ClosingIsFinal(xs, ids[..n], [ids[n]] + rest, newId);
      assert Init(xs + Closing(ids, newId)) == xs + Closing(ids[..n], newId);
      assert ([ids[n]] + rest)[1..] == rest;
    }
  }

  // ---- Model steps ----

  // Items a step may append: no user or result items, and calls with fresh, nonblank ids.
  ghost predicate StepItems(xs: seq<Item>, before: set<string>) {
    xs != [] ==>
      && StepItems(Init(xs), before)
      && !Last(xs).UserMessage? && !Last(xs).ToolResult?
      && (Last(xs).ToolCall? ==> Last(xs).callId != [] && Last(xs).callId !in before + CallIds(Init(xs)))
  }

  // No text or reasoning item directly follows a tool call.
  predicate CallsLast(xs: seq<Item>) {
    |xs| > 1 ==> CallsLast(Init(xs)) && (IsMessage(Last(xs)) ==> !Last(Init(xs)).ToolCall?)
  }

  lemma {:induction false} CallsLastConcat(a: seq<Item>, b: seq<Item>)
    ensures CallsLast(a + b) <==>
      CallsLast(a) && CallsLast(b) && (a != [] && b != [] && Last(a).ToolCall? ==> !IsMessage(b[0]))
  {
    if b == [] {
      assert a + b == a;
    } else if a == [] {
      assert a + b == b;
    } else {
      assert Init(a + b) == a + Init(b) && Last(a + b) == Last(b);
      CallsLastConcat(a, Init(b));
      if |b| == 1 {
        assert Init(b) == [] && a + Init(b) == a;
      } else {
        assert Last(a + Init(b)) == Last(Init(b)) && Init(b)[0] == b[0];
      }
    }
  }

  function ToolCallsOf(xs: seq<Item>): seq<Item> {
    if xs == [] then []
    else if Last(xs).ToolCall? then ToolCallsOf(Init(xs)) + [Last(xs)]
    else ToolCallsOf(Init(xs))
  }

  lemma {:induction false} ToolCallsMeaning(xs: seq<Item>, before: set<string>)
    requires StepItems(xs, before)
    ensures AllCalls(ToolCallsOf(xs)) && Ids(ToolCallsOf(xs)) == CallIds(xs) && NoRepeats(ToolCallsOf(xs))
    ensures xs != [] && Last(xs).ToolCall? ==> ToolCallsOf(xs) != []
  {
    if xs != [] {
      ToolCallsMeaning(Init(xs), before);
      if Last(xs).ToolCall? { Snoc(ToolCallsOf(Init(xs)), Last(xs)); }
    }
  }

  // The items of a step leave a legal history exactly when no message follows a call; the
  // validator then holds the step's calls open.
  lemma {:induction false} StepScan(h: seq<Item>, xs: seq<Item>)
    requires Accepts(h) && StepItems(xs, CallIds(h))
    ensures Scan(h + xs).Ok? <==> CallsLast(xs)
    ensures Scan(h + xs).Ok? ==> Scan(h + xs).value.pending == CallIds(xs)
    ensures Scan(h + xs).Ok? && xs != [] ==> !Scan(h + xs).value.resultsStarted
    ensures Scan(h + xs).Ok? && xs != [] ==> (CallIds(xs) == {} <==> !Last(xs).ToolCall?)
  {
    if xs == [] {
      assert h + xs == h;
      return;
    }
    StepScan(h, Init(xs));
    StepScanNext(h, xs);
  }

  lemma StepScanNext(h: seq<Item>, xs: seq<Item>)
    requires Accepts(h) && xs != [] && StepItems(xs, CallIds(h)) && (Scan(h + Init(xs)).Ok? <==> CallsLast(Init(xs)))
    requires var init := Init(xs);
             Scan(h + init).Ok? ==>
               && Scan(h + init).value.pending == CallIds(init)
               && (init != [] ==>
                     && !Scan(h + init).value.resultsStarted
                     && (CallIds(init) == {} <==> !Last(init).ToolCall?))
    ensures Scan(h + xs).Ok? <==> CallsLast(xs)
    ensures Scan(h + xs).Ok? ==> Scan(h + xs).value.pending == CallIds(xs)
    ensures Scan(h + xs).Ok? ==> !Scan(h + xs).value.resultsStarted && (CallIds(xs) == {} <==> !Last(xs).ToolCall?)
  {
    var init, x := Init(xs), Last(xs);
    Unsnoc(xs);
    assert Init(h + xs) == h + init;
    CallsLastConcat(init, [x]);
    CallIdsConcat(h, init);
    if Scan(h + init).Ok? { SeenIsCallIds(h + init); }
    if init == [] { assert h + init == h; }
  }

  lemma StepItemsSnoc(xs: seq<Item>, x: Item, before: set<string>)
    requires StepItems(xs, before) && !x.UserMessage? && !x.ToolResult?
    requires x.ToolCall? ==> !Blank(x.callId) && x.callId !in before + CallIds(xs)
    ensures StepItems(xs + [x], before)
    ensures CallIds(xs + [x]) == CallIds(xs) + (if x.ToolCall? then {x.callId} else {})
  {
    Snoc(xs, x);
    assert Blank([]);
  }

  // What holds of a history the run has extended by `appended` whenever the run may stop.
  ghost predicate Resumable(h: seq<Item>, appended: seq<Item>) {
    Accepts(h) ==> (Scan(h + appended).Ok? <==> CallsLast(appended))
  }

  // What holds between steps: nothing is open.
  ghost predicate Settled(h: seq<Item>, appended: seq<Item>) {
    && Resumable(h, appended)
    && (appended != [] ==> !Last(appended).ToolCall?)
    && (Accepts(h) && Scan(h + appended).Ok? ==> Scan(h + appended).value.pending == {})
  }

  lemma SettledAddsUser(h: seq<Item>, appended: seq<Item>, x: Item)
    requires Settled(h, appended) && IsMessage(x)
    ensures Settled(h, appended + [x])
  {
    assert h + (appended + [x]) == (h + appended) + [x];
    ScanAppend(h + appended, x);
    CallsLastConcat(appended, [x]);
    Snoc(appended, x);
    if Scan(h + appended).Err? { ScanErrorStays(h + appended, [x]); }
  }

  lemma SettledAddsStep(h: seq<Item>, appended: seq<Item>, xs: seq<Item>)
    requires Settled(h, appended) && StepItems(xs, CallIds(h + appended))
    ensures Resumable(h, appended + xs)
    ensures ToolCallsOf(xs) == [] ==> Settled(h, appended + xs)
  {
    assert h + (appended + xs) == (h + appended) + xs;
    CallsLastConcat(appended, xs);
    ToolCallsMeaning(xs, CallIds(h + appended));
    if Scan(h + appended).Err? {
      ScanErrorStays(h + appended, xs);
    } else if Accepts(h) {
      StepScan(h + appended, xs);
    }
    if xs != [] { assert Last(appended + xs) == Last(xs); } else { assert appended + xs == appended; }
  }

  // Answering the calls of a legal step, one result at a time.
  lemma LegalResults(g: seq<Item>, xs: seq<Item>, results: seq<Item>, n: nat)
    requires Accepts(g) && StepItems(xs, CallIds(g)) && Scan(g + xs).Ok?
    requires AllResults(results) && IdList(results) == IdList(ToolCallsOf(xs)) && n <= |results|
    ensures Scan(g + xs + results[..n]).Ok?
    ensures n == |results| ==> Scan(g + xs + results[..n]).value.pending == {}
  {
    assert Scan(g + xs).value.pending == Ids(results) && NoRepeats(results) by {
      StepScan(g, xs);
      ToolCallsMeaning(xs, CallIds(g));
      IdListMeaning(ToolCallsOf(xs));
      IdListMeaning(results);
    }
    IdsOfPrefix(results, n);
    ScanResults(g + xs, results[..n]);
    assert n == |results| ==> results[..n] == results;
  }

  lemma ResultsScan(g: seq<Item>, xs: seq<Item>, results: seq<Item>, n: nat)
    requires (Scan(g).Ok? ==> Accepts(g)) && StepItems(xs, CallIds(g)) && n <= |results|
    requires AllResults(results) && IdList(results) == IdList(ToolCallsOf(xs))
    ensures Scan(g + xs + results[..n]).Ok? <==> Scan(g + xs).Ok?
    ensures n == |results| && Scan(g + xs).Ok? ==> Scan(g + xs + results[..n]).value.pending == {}
  {
    if Scan(g).Err? { ScanErrorStays(g, xs); }
    if Scan(g + xs).Err? {
      ScanErrorStays(g + xs, results[..n]);
    } else {
      LegalResults(g, xs, results, n);
    }
  }

  lemma StepAddsResults(h: seq<Item>, appended: seq<Item>, xs: seq<Item>, results: seq<Item>, n: nat)
    requires Settled(h, appended) && StepItems(xs, CallIds(h + appended)) && n <= |results|
    requires AllResults(results) && IdList(results) == IdList(ToolCallsOf(xs))
    ensures Resumable(h, appended + xs + results[..n])
    ensures n == |results| && results != [] ==> Settled(h, appended + xs + results[..n])
  {
    var ys, r := appended + xs, results[..n];
    assert Resumable(h, ys) by { SettledAddsStep(h, appended, xs); }
    ResultsKeepOrder(ys, r);
    Assoc(h, ys, r);
    Assoc(h, appended, xs);
    if Accepts(h) { ResultsScan(h + appended, xs, results, n); }
    if n > 0 { assert Last(ys + r) == results[n - 1]; }
  }

  lemma Assoc(a: seq<Item>, b: seq<Item>, c: seq<Item>)
    ensures a + (b + c) == a + b + c
  {
  }

  lemma {:induction false} ResultsKeepOrder(base: seq<Item>, part: seq<Item>)
    requires AllResults(part)
    ensures CallsLast(base + part) <==> CallsLast(base)
  {
    if part == [] {
      assert base + part == base;
    } else {
      assert Init(base + part) == base + Init(part) && Last(base + part) == Last(part);
      ResultsKeepOrder(base, Init(part));
    }
  }

  lemma {:induction false} IdsOfPrefix(items: seq<Item>, n: nat)
    requires n <= |items| && NoRepeats(items)
    ensures NoRepeats(items[..n]) && Ids(items[..n]) <= Ids(items)
  {
    if n == |items| {
      assert items[..n] == items;
    } else {
      assert Init(items)[..n] == items[..n];
      IdsOfPrefix(Init(items), n);
    }
  }
}
