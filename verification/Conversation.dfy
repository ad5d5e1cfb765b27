// Canonical conversation items shared by sessions, providers and the daemon.
module Conversation {
  import opened Basics
  import opened CanonicalJson

  datatype Phase = Commentary | FinalAnswer

  datatype Content =
    | Text(text: string)
    | Image(mimeType: string, data: Option<string>, uri: Option<string>)
    | Audio(mimeType: string, data: Option<string>, uri: Option<string>)

  datatype ToolOutput =
    | TextOutput(text: string)
    | Structured(value: Json)
    | Blocks(blocks: seq<Content>)

  datatype Item =
    | UserMessage(id: string, content: seq<Content>)
    | AssistantMessage(id: string, content: seq<Content>, phase: Phase)
    | Reasoning(id: string, thinking: string, signature: Option<string>, encrypted: Option<string>)
    | ToolCall(id: string, callId: string, namespace: Option<string>, name: string, arguments: Option<Json>,
      rawArguments: string)
    | ToolResult(id: string, callId: string, output: ToolOutput, isError: bool)

  // Everything that is neither a call nor a result.
  predicate IsMessage(x: Item) {
    !x.ToolCall? && !x.ToolResult?
  }

  predicate AllCalls(items: seq<Item>) {
    forall i | 0 <= i < |items| :: items[i].ToolCall?
  }

  predicate AllResults(items: seq<Item>) {
    forall i | 0 <= i < |items| :: items[i].ToolResult?
  }

  // The call an item belongs to; a message belongs to none.
  function CallOf(x: Item): string {
    if IsMessage(x) then [] else x.callId
  }

  // The texts of a content list, one after the other.
  function PlainText(content: seq<Content>): string {
    FlatMap(content, TextOf)
  }

  function TextOf(c: Content): string {
    if c.Text? then c.text else ""
  }

  lemma PlainTextJoins(a: seq<Content>, b: seq<Content>, c: Content)
    ensures PlainText([]) == "" && PlainText([c]) == (if c.Text? then c.text else "")
    ensures PlainText(a + b) == PlainText(a) + PlainText(b)
  {
    FlatMapOne(c, TextOf);
    FlatMapJoins(a, b, TextOf);
  }

  function Init(items: seq<Item>): seq<Item>
    requires items != []
  {
    items[..|items| - 1]
  }

  function Last(items: seq<Item>): Item
    requires items != []
  {
    items[|items| - 1]
  }

  // The calls that a run of tool items belongs to.
  function Ids(items: seq<Item>): set<string> {
    if items == [] then {} else Ids(Init(items)) + {CallOf(Last(items))}
  }

  // The same, as a list.
  function IdList(items: seq<Item>): seq<string> {
    if items == [] then [] else IdList(Init(items)) + [CallOf(Last(items))]
  }

  lemma {:induction false} IdListMeaning(items: seq<Item>)
    ensures |IdList(items)| == |items| && ToSet(IdList(items)) == Ids(items)
    ensures NoRepeats(items) <==> Distinct(IdList(items))
  {
    if items != [] {
      IdListMeaning(Init(items));
      DistinctAppend(IdList(Init(items)), CallOf(Last(items)));
    }
  }

  // One result per call, in any order.
  lemma BatchSameIds(calls: seq<Item>, results: seq<Item>)
    requires NoRepeats(calls) && NoRepeats(results) && Ids(calls) == Ids(results)
    ensures |calls| == |results| && SameIds(IdList(calls), IdList(results))
  {
    IdListMeaning(calls);
    IdListMeaning(results);
    IdCount(calls);
    IdCount(results);
  }

  lemma {:induction false} IdCount(items: seq<Item>)
    requires NoRepeats(items)
    ensures |Ids(items)| == |items|
  {
    if items != [] { IdCount(Init(items)); }
  }

  // No two of the tool items belong to the same call.
  predicate NoRepeats(items: seq<Item>) {
    items != [] ==> NoRepeats(Init(items)) && CallOf(Last(items)) !in Ids(Init(items))
  }

  // The ids of the calls made in a conversation.
  function CallIds(items: seq<Item>): set<string> {
    if items == [] then {}
    else CallIds(Init(items)) + if Last(items).ToolCall? then {Last(items).callId} else {}
  }

  // No call id is used twice in the conversation.
  predicate UniqueCalls(items: seq<Item>) {
    items != [] ==>
      UniqueCalls(Init(items)) && (Last(items).ToolCall? ==> Last(items).callId !in CallIds(Init(items)))
  }

  // items + [x] ends in x: everything defined from the end of a list unfolds.
  lemma Snoc(items: seq<Item>, x: Item)
    ensures Init(items + [x]) == items && Last(items + [x]) == x
  {
  }

  lemma Unsnoc(items: seq<Item>)
    requires items != []
    ensures items == Init(items) + [Last(items)]
  {
  }

  lemma {:induction false} CallIdsConcat(a: seq<Item>, b: seq<Item>)
    ensures CallIds(a + b) == CallIds(a) + CallIds(b)
    ensures UniqueCalls(a + b) ==> UniqueCalls(a) && CallIds(a) !! CallIds(b)
  {
    if b == [] {
      assert a + b == a;
    } else {
      CallIdsConcat(a, Init(b));
      assert Init(a + b) == a + Init(b);
    }
  }

  lemma {:induction false} CallIdsOfRun(items: seq<Item>)
    ensures AllCalls(items) ==> CallIds(items) == Ids(items)
    ensures AllResults(items) ==> CallIds(items) == {}
  {
    if items != [] { CallIdsOfRun(Init(items)); }
  }
}
