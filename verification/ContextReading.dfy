// A reading of the history validator without a state: what is wrong with an item is decided by the items
// before it.
module ContextReading {
  import opened Basics
  import opened Conversation
  import opened Context

  predicate Answers(x: Item, callId: string) {
    x.ToolResult? && x.callId == callId
  }

  predicate Makes(x: Item, callId: string) {
    x.ToolCall? && x.callId == callId
  }

  predicate Made(items: seq<Item>, callId: string) {
    exists k :: 0 <= k < |items| && Makes(items[k], callId)
  }

  predicate Answered(items: seq<Item>, callId: string) {
    exists k :: 0 <= k < |items| && Answers(items[k], callId)
  }

  // A call that has no result yet.
  predicate Open(items: seq<Item>, callId: string) {
    Made(items, callId) && !Answered(items, callId)
  }

  ghost predicate AnyOpen(items: seq<Item>) {
    exists callId :: Open(items, callId)
  }

  // What is wrong with the next item, if anything: a call without an id of its own, or in a batch that is being
  // answered; a result without an open call; a message while calls are open.
  ghost function Wrong(items: seq<Item>, x: Item): Option<ContextError> {
    match x
    case ToolCall(_, callId, _, _, _, _) =>
      if callId == "" then Some(EmptyCallId(|items|))
      else if Made(items, callId) then Some(DuplicateCallId(callId))
      else if AnyOpen(items) && items[|items| - 1].ToolResult? then Some(BatchUnanswered(callId))
      else None
    case ToolResult(_, callId, _, _) => if Open(items, callId) then None else Some(OrphanResult(|items|, callId))
    case _ => if AnyOpen(items) then Some(BatchInterrupted(|items|)) else None
  }

  ghost predicate Holds(items: seq<Item>, s: ScanState) {
    && (forall callId :: callId in s.seen <==> Made(items, callId))
    && (forall callId :: callId in s.pending <==> Open(items, callId))
    && (s.resultsStarted <==> s.pending != {} && items != [] && items[|items| - 1].ToolResult?)
    && (forall callId :: Answered(items, callId) ==> Made(items, callId))
  }

  lemma NextItem(items: seq<Item>, x: Item)
    ensures forall callId :: Made(items + [x], callId) <==> Made(items, callId) || Makes(x, callId)
    ensures forall callId :: Answered(items + [x], callId) <==> Answered(items, callId) || Answers(x, callId)
  {
    var more := items + [x];
    assert more[|items|] == x && forall k | 0 <= k < |items| :: more[k] == items[k];
  }

  lemma WrongIsObserved(items: seq<Item>, s: ScanState, x: Item)
    requires Holds(items, s)
    ensures Wrong(items, x) == match Observe(s, |items|, x) case Ok(_) => None case Err(e) => Some(e)
  {
    if callId :| callId in s.pending { assert Open(items, callId); }
  }

  lemma HoldsOn(items: seq<Item>, s: ScanState, x: Item)
    requires Holds(items, s) && Observe(s, |items|, x).Ok?
    ensures Holds(items + [x], Observe(s, |items|, x).value)
  {
    NextItem(items, x);
  }

  lemma {:induction false} ScanHolds(items: seq<Item>)
    requires Scan(items).Ok?
    ensures Holds(items, Scan(items).value)
  {
    if items != [] {
      ScanHolds(Init(items));
      HoldsOn(Init(items), Scan(Init(items)).value, Last(items));
      Unsnoc(items);
    }
  }

  ghost predicate NothingWrong(items: seq<Item>) {
    items != [] ==> NothingWrong(Init(items)) && Wrong(Init(items), Last(items)).None?
  }

  lemma {:induction false} ScanIsReading(items: seq<Item>)
    ensures Scan(items).Ok? <==> NothingWrong(items)
  {
    if items != [] {
      ScanIsReading(Init(items));
      if Scan(Init(items)).Ok? {
        ScanHolds(Init(items));
        WrongIsObserved(Init(items), Scan(Init(items)).value, Last(items));
      }
    }
  }

  // The validator names what is wrong with the first item that something is wrong with; a history with
  // nothing wrong is refused only for the calls that are open at its end.
  lemma VerdictIsFirst(items: seq<Item>, n: nat)
    requires n < |items| && NothingWrong(items[..n]) && Wrong(items[..n], items[n]).Some?
    ensures Verdict(items) == Wrong(items[..n], items[n])
  {
    var init := items[..n];
    ScanIsReading(init);
    ScanHolds(init);
    WrongIsObserved(init, Scan(init).value, items[n]);
    ScanNext(items, n, Scan(init).value);
  }

  lemma VerdictAtEnd(items: seq<Item>)
    requires NothingWrong(items)
    ensures Verdict(items).None? <==> !AnyOpen(items)
    ensures Verdict(items).Some? ==>
              && Verdict(items).value.CallsUnanswered?
              && forall callId :: callId in Verdict(items).value.calls <==> Open(items, callId)
  {
    ScanIsReading(items);
    ScanHolds(items);
    var pending := Scan(items).value.pending;
    if pending != {} {
      var callId :| callId in pending;
      assert Open(items, callId);
    }
  }
}
