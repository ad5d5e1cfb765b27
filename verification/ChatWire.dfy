// Rendering a conversation as Chat Completions messages: consecutive calls share
// one assistant message, every result is a `tool` message of its own.
module ChatWire {
  import opened Basics
  import opened CanonicalJson
  import opened Conversation
  import opened Context

  datatype Part = TextPart(text: string) | ImagePart(url: string)

  datatype FunctionCall = FunctionCall(id: string, name: string, arguments: string)

  datatype ChatMessage =
    | Prompt(role: string, content: string)
    | UserText(text: string)
    | UserParts(parts: seq<Part>)
    | AssistantText(text: string)
    | ReasoningText(thinking: string)
    | ToolCalls(calls: seq<FunctionCall>)
    | Tool(toolCallId: string, content: string)

  function PartsOf(content: seq<Content>): seq<Part> {
    FlatMap(content, PartOf)
  }

  function PartOf(c: Content): seq<Part> {
    match c
    case Text(text) => [TextPart(text)]
    case Image(mime, Some(data), _) => [ImagePart("data:" + mime + ";base64," + data)]
    case Image(_, None, Some(uri)) => [ImagePart(uri)]
    case _ => []
  }

  // The parts of a user message are those of its content, in order: of a text, its text; of an image, its
  // data or else where it is to be found; of anything else, nothing.
  lemma PartsJoin(a: seq<Content>, b: seq<Content>, c: Content)
    ensures PartsOf([]) == [] && PartsOf(a + b) == PartsOf(a) + PartsOf(b)
    ensures c.Text? ==> PartsOf([c]) == [TextPart(c.text)]
    ensures c.Image? && c.data.Some? ==> PartsOf([c]) == [ImagePart("data:" + c.mimeType + ";base64," + c.data.value)]
    ensures c.Image? && c.data.None? && c.uri.Some? ==> PartsOf([c]) == [ImagePart(c.uri.value)]
    ensures c.Audio? || (c.Image? && c.data.None? && c.uri.None?) ==> PartsOf([c]) == []
  {
    FlatMapOne(c, PartOf);
    FlatMapJoins(a, b, PartOf);
  }

  method CollectParts(content: seq<Content>) returns (parts: seq<Part>)
    ensures parts == PartsOf(content)
  {
    parts := [];
    for k := 0 to |content|
      invariant parts == PartsOf(content[..k])
    {
      FlatMapNext(content, k, PartOf);
      match content[k] {
        case Text(text) => parts := parts + [TextPart(text)];
        case Image(mime, data, uri) =>
          if data.Some? {
            parts := parts + [ImagePart("data:" + mime + ";base64," + data.value)];
          } else if uri.Some? {
            parts := parts + [ImagePart(uri.value)];
          }
        case Audio(_, _, _) =>
      }
    }
    assert content[..|content|] == content;
  }

  method CollectText(blocks: seq<Content>) returns (text: string)
    ensures text == PlainText(blocks)
  {
    text := "";
    for k := 0 to |blocks|
      invariant text == PlainText(blocks[..k])
    {
      FlatMapNext(blocks, k, TextOf);
      if blocks[k].Text? { text := text + blocks[k].text; }
    }
    assert blocks[..|blocks|] == blocks;
  }

  function CallOfItem(x: Item, render: Json -> string): FunctionCall
    requires x.ToolCall?
  {
    var arguments :=
      if x.rawArguments != "" then x.rawArguments
      else match x.arguments case Some(args) => render(args) case None => "{}";
    FunctionCall(x.callId, x.name, arguments)
  }

  function OutputText(output: ToolOutput, render: Json -> string): string {
    match output
    case TextOutput(text) => text
    case Structured(value) => render(value)
    case Blocks(blocks) => PlainText(blocks)
  }

  // The message an item other than a call becomes.
  function ItemMessage(x: Item, render: Json -> string): ChatMessage
    requires !x.ToolCall?
  {
    match x
    case UserMessage(_, content) =>
      if |content| == 1 && content[0].Text? then UserText(content[0].text) else UserParts(PartsOf(content))
    case AssistantMessage(_, content, _) => AssistantText(PlainText(content))
    case Reasoning(_, thinking, _, _) => ReasoningText(thinking)
    case ToolResult(_, callId, output, _) => Tool(callId, OutputText(output, render))
  }

  function Preamble(model: string, system: Option<string>): seq<ChatMessage> {
    match system
    case None => []
    case Some(prompt) => [Prompt(if |model| >= 2 && model[..2] == "o1" then "developer" else "system", prompt)]
  }

  // messages and the index of the call message that the next call joins.
  datatype ChatState = ChatState(messages: seq<ChatMessage>, toolGroup: Option<nat>)

  predicate GroupOk(s: ChatState) {
    s.toolGroup.Some? ==> s.toolGroup.value < |s.messages| && s.messages[s.toolGroup.value].ToolCalls?
  }

  function Step(s: ChatState, x: Item, render: Json -> string): (r: ChatState)
    requires GroupOk(s)
    ensures GroupOk(r)
  {
    if !x.ToolCall? then ChatState(s.messages + [ItemMessage(x, render)], None)
    else
      var call := CallOfItem(x, render);
      match s.toolGroup
      case Some(index) => ChatState(s.messages[index := ToolCalls(s.messages[index].calls + [call])], s.toolGroup)
      case None => ChatState(s.messages + [ToolCalls([call])], Some(|s.messages|))
  }

  function Render(items: seq<Item>, start: seq<ChatMessage>, render: Json -> string): (s: ChatState)
    ensures GroupOk(s)
  {
    if items == [] then ChatState(start, None) else Step(Render(Init(items), start, render), Last(items), render)
  }

  method RenderItem(messages0: seq<ChatMessage>, toolGroup0: Option<nat>, item: Item, render: Json -> string)
    returns (messages: seq<ChatMessage>, toolGroup: Option<nat>)
    requires GroupOk(ChatState(messages0, toolGroup0))
    ensures ChatState(messages, toolGroup) == Step(ChatState(messages0, toolGroup0), item, render)
  {
    messages, toolGroup := messages0, toolGroup0;
    if !item.ToolCall? { toolGroup := None; }
    match item {
      case UserMessage(_, content) =>
        if |content| == 1 && content[0].Text? {
          messages := messages + [UserText(content[0].text)];
        } else {
          var parts := CollectParts(content);
          messages := messages + [UserParts(parts)];
        }
      case AssistantMessage(_, content, _) =>
        messages := messages + [AssistantText(PlainText(content))];
      case Reasoning(_, thinking, _, _) =>
        messages := messages + [ReasoningText(thinking)];
      case ToolCall(_, _, _, _, _, _) =>
        var call := CallOfItem(item, render);
        if toolGroup.Some? {
          var index := toolGroup.value;
          messages := messages[index := ToolCalls(messages[index].calls + [call])];
        } else {
          toolGroup := Some(|messages|);
          messages := messages + [ToolCalls([call])];
        }
      case ToolResult(_, callId, output, _) =>
        var text: string;
        match output {
          case TextOutput(t) => text := t;
          case Structured(value) => text := render(value);
          case Blocks(blocks) => text := CollectText(blocks);
        }
        messages := messages + [Tool(callId, text)];
    }
  }

  method SerializeMessages(model: string, system: Option<string>, history: seq<Item>, render: Json -> string)
    returns (messages: seq<ChatMessage>)
    ensures messages == Render(history, Preamble(model, system), render).messages
    // The prompt comes first, as the developer's for the reasoning models of that name.
    ensures system.None? ==> Preamble(model, system) == []
    ensures system.Some? ==>
              && messages != [] && Preamble(model, system) == messages[..1]
              && messages[0] == Prompt(if "o1" <= model then "developer" else "system", system.value)
    ensures CarriesAll(history, Preamble(model, system), messages, render)
    ensures Accepts(history) ==> PairedRendering(history, Preamble(model, system), messages, render)
  {
    messages := [];
    if system.Some? {
      var role := if |model| >= 2 && model[..2] == "o1" then "developer" else "system";
      messages := messages + [Prompt(role, system.value)];
    }
    var toolGroup: Option<nat> := None;
    for k := 0 to |history|
      invariant ChatState(messages, toolGroup) == Render(history[..k], Preamble(model, system), render)
    {
      assert Init(history[..k + 1]) == history[..k] && Last(history[..k + 1]) == history[k];
      messages, toolGroup := RenderItem(messages, toolGroup, history[k], render);
    }
    assert history[..|history|] == history;
    PromptFirst(model, system, messages, history, render);
    AllAreCarried(history, Preamble(model, system), render);
    if Accepts(history) { AcceptedIsPaired(history, Preamble(model, system), render); }
  }

  lemma PromptFirst(model: string, system: Option<string>, messages: seq<ChatMessage>, history: seq<Item>,
                    render: Json -> string)
    requires messages == Render(history, Preamble(model, system), render).messages
    ensures system.None? ==> Preamble(model, system) == []
    ensures system.Some? ==>
              && messages != [] && Preamble(model, system) == messages[..1]
              && messages[0] == Prompt(if "o1" <= model then "developer" else "system", system.value)
  {
    GroupIsLast(history, Preamble(model, system), render);
    assert |model| >= 2 && model[..2] == "o1" <==> "o1" <= model;
  }

  // ---- What the messages carry, for every history ----

  // What a message says of an item that is not a call.
  predicate Carries(x: Item, m: ChatMessage, render: Json -> string) {
    match x
    case UserMessage(_, content) =>
      if |content| == 1 && content[0].Text? then m == UserText(content[0].text) else m == UserParts(PartsOf(content))
    case AssistantMessage(_, content, _) => m == AssistantText(PlainText(content))
    case Reasoning(_, thinking, _, _) => m == ReasoningText(thinking)
    case ToolCall(_, _, _, _, _, _) => false
    case ToolResult(_, callId, output, _) =>
      && m.Tool? && m.toolCallId == callId
      && (output.TextOutput? ==> m.content == output.text)
      && (output.Structured? ==> m.content == render(output.value))
      && (output.Blocks? ==> m.content == PlainText(output.blocks))
  }

  // ... and a function call of a call: its arguments as the model wrote them, where it did.
  predicate CarriesCall(x: Item, call: FunctionCall, render: Json -> string) {
    && x.ToolCall? && call.id == x.callId && call.name == x.name
    && (x.rawArguments != "" ==> call.arguments == x.rawArguments)
    && (x.rawArguments == "" && x.arguments.Some? ==> call.arguments == render(x.arguments.value))
    && (x.rawArguments == "" && x.arguments.None? ==> call.arguments == "{}")
  }

  // What the messages hold, with every call of a call message by itself.
  datatype Unit = Whole(message: ChatMessage) | OneCall(call: FunctionCall)

  function UnitsOf(m: ChatMessage): seq<Unit> {
    if m.ToolCalls? then FlatMap(m.calls, CallUnit) else [Whole(m)]
  }

  function CallUnit(call: FunctionCall): seq<Unit> {
    [OneCall(call)]
  }

  function Units(messages: seq<ChatMessage>): seq<Unit> {
    FlatMap(messages, UnitsOf)
  }

  predicate CarriesUnit(x: Item, u: Unit, render: Json -> string) {
    if x.ToolCall? then u.OneCall? && CarriesCall(x, u.call, render) else u.Whole? && Carries(x, u.message, render)
  }

  // After the preamble the messages carry the items of the history, one for one and in order.
  ghost predicate CarriesAll(history: seq<Item>, start: seq<ChatMessage>, messages: seq<ChatMessage>,
                             render: Json -> string)
  {
    start <= messages && Carried(history, Units(messages[|start|..]), render)
  }

  ghost predicate Carried(history: seq<Item>, units: seq<Unit>, render: Json -> string) {
    |units| == |history| && forall k | 0 <= k < |history| :: CarriesUnit(history[k], units[k], render)
  }

  lemma CarriedSnoc(history: seq<Item>, units: seq<Unit>, x: Item, u: Unit, render: Json -> string)
    requires Carried(history, units, render) && CarriesUnit(x, u, render)
    ensures Carried(history + [x], units + [u], render)
  {
  }

  function UnitOf(x: Item, render: Json -> string): (u: Unit)
    ensures CarriesUnit(x, u, render)
  {
    if x.ToolCall? then OneCall(CallOfItem(x, render)) else Whole(ItemMessage(x, render))
  }

  // The call message that is open is the last message.
  lemma {:induction false} GroupIsLast(items: seq<Item>, start: seq<ChatMessage>, render: Json -> string)
    ensures var s := Render(items, start, render);
            && start <= s.messages
            && (s.toolGroup.Some? ==> |start| <= s.toolGroup.value == |s.messages| - 1)
  {
    if items != [] { GroupIsLast(Init(items), start, render); }
  }

  // A call joins the open call message ...
  lemma JoinCarries(was: seq<ChatMessage>, start: seq<ChatMessage>, call: FunctionCall)
    requires |start| < |was| && start <= was && was[|was| - 1].ToolCalls?
    ensures var n := |was| - 1;
            var next := was[n := ToolCalls(was[n].calls + [call])];
            start <= next && Units(next[|start|..]) == Units(was[|start|..]) + [OneCall(call)]
  {
    var n := |was| - 1;
    var before, more := was[|start|..n], ToolCalls(was[n].calls + [call]);
    assert was[|start|..] == before + [was[n]] && was[n := more][|start|..] == before + [more];
    FlatMapJoins(before, [was[n]], UnitsOf);
    FlatMapJoins(before, [more], UnitsOf);
    FlatMapOne(was[n], UnitsOf);
    FlatMapOne(more, UnitsOf);
    FlatMapJoins(was[n].calls, [call], CallUnit);
    FlatMapOne(call, CallUnit);
  }

  // ... and anything else is a message more.
  lemma AddCarries(was: seq<ChatMessage>, start: seq<ChatMessage>, m: ChatMessage, u: Unit)
    requires start <= was && UnitsOf(m) == [u]
    ensures start <= was + [m] && Units((was + [m])[|start|..]) == Units(was[|start|..]) + [u]
  {
    FlatMapJoins(was[|start|..], [m], UnitsOf);
    FlatMapOne(m, UnitsOf);
    assert (was + [m])[|start|..] == was[|start|..] + [m];
  }

  lemma StepCarries(s: ChatState, start: seq<ChatMessage>, x: Item, render: Json -> string)
    requires GroupOk(s) && start <= s.messages
    requires s.toolGroup.Some? ==> |start| <= s.toolGroup.value == |s.messages| - 1
    ensures var next := Step(s, x, render).messages;
            start <= next && Units(next[|start|..]) == Units(s.messages[|start|..]) + [UnitOf(x, render)]
  {
    if x.ToolCall? {
      var call := CallOfItem(x, render);
      if s.toolGroup.Some? {
        JoinCarries(s.messages, start, call);
      } else {
        FlatMapOne(call, CallUnit);
        AddCarries(s.messages, start, ToolCalls([call]), OneCall(call));
      }
    } else {
      AddCarries(s.messages, start, ItemMessage(x, render), Whole(ItemMessage(x, render)));
    }
  }

  lemma {:induction false} AllAreCarried(history: seq<Item>, start: seq<ChatMessage>, render: Json -> string)
    ensures CarriesAll(history, start, Render(history, start, render).messages, render)
  {
    if history == [] {
      assert start[|start|..] == [];
    } else {
      var init, x := Init(history), Last(history);
      var s := Render(init, start, render);
      AllAreCarried(init, start, render);
      GroupIsLast(init, start, render);
      StepCarries(s, start, x, render);
      CarriedSnoc(init, Units(s.messages[|start|..]), x, UnitOf(x, render), render);
      assert history == init + [x];
    }
  }

  // ---- Pairing ----

  // A message that has nothing to do with tools, or a call message with its answers.
  datatype Segment = Single(message: ChatMessage) | Exchange(calls: seq<FunctionCall>, answers: seq<ChatMessage>)

  function SegmentMessages(s: Segment): seq<ChatMessage> {
    match s
    case Single(m) => [m]
    case Exchange(calls, answers) => [ToolCalls(calls)] + answers
  }

  function Joined(segments: seq<Segment>): seq<ChatMessage> {
    if segments == [] then []
    else Joined(segments[..|segments| - 1]) + SegmentMessages(segments[|segments| - 1])
  }

  function FunctionIds(calls: seq<FunctionCall>): seq<string> {
    if calls == [] then [] else FunctionIds(calls[..|calls| - 1]) + [calls[|calls| - 1].id]
  }

  function AnswerId(m: ChatMessage): string {
    if m.Tool? then m.toolCallId else ""
  }

  function AnswerIds(answers: seq<ChatMessage>): seq<string> {
    if answers == [] then [] else AnswerIds(answers[..|answers| - 1]) + [AnswerId(answers[|answers| - 1])]
  }

  // The segment of a block: one message for a message; for a batch, all its calls in one
  // assistant message, directly followed by one `tool` message per call.
  ghost predicate SegmentOf(b: Block, s: Segment, render: Json -> string) {
    match b
    case Message(x) => IsMessage(x) && s.Single? && Carries(x, s.message, render)
    case Batch(calls, results) =>
      && AllCalls(calls) && AllResults(results) && s.Exchange?
      && |s.calls| == |calls| && (forall i | 0 <= i < |calls| :: CarriesCall(calls[i], s.calls[i], render))
      && |s.answers| == |results| && (forall i | 0 <= i < |results| :: Carries(results[i], s.answers[i], render))
      && (forall i | 0 <= i < |s.answers| :: s.answers[i].Tool?)
      && SameIds(FunctionIds(s.calls), AnswerIds(s.answers))
  }

  ghost predicate Exchanges(bs: seq<Block>, segments: seq<Segment>, render: Json -> string) {
    |segments| == |bs| && forall i | 0 <= i < |bs| :: SegmentOf(bs[i], segments[i], render)
  }

  // The messages after the preamble are the blocks of the history, segment by segment.
  ghost predicate PairedRendering(history: seq<Item>, start: seq<ChatMessage>, messages: seq<ChatMessage>,
                                  render: Json -> string) {
    exists bs, segments ::
      && ValidBlocks(bs) && Flatten(bs) == history
      && Exchanges(bs, segments, render) && messages == start + Joined(segments)
  }

  function CallsOf(calls: seq<Item>, render: Json -> string): (r: seq<FunctionCall>)
    requires AllCalls(calls)
    ensures |r| == |calls| && forall i | 0 <= i < |calls| :: r[i] == CallOfItem(calls[i], render)
  {
    seq(|calls|, i requires 0 <= i < |calls| => CallOfItem(calls[i], render))
  }

  function AnswersOf(results: seq<Item>, render: Json -> string): (r: seq<ChatMessage>)
    requires AllResults(results)
    ensures |r| == |results| && forall i | 0 <= i < |results| :: r[i] == ItemMessage(results[i], render)
  {
    seq(|results|, i requires 0 <= i < |results| => ItemMessage(results[i], render))
  }

  lemma CallsOfSnoc(calls: seq<Item>, render: Json -> string)
    requires AllCalls(calls) && calls != []
    ensures AllCalls(Init(calls)) && Last(calls).ToolCall?
    ensures CallsOf(calls, render) == CallsOf(Init(calls), render) + [CallOfItem(Last(calls), render)]
  {
  }

  lemma AnswersOfSnoc(results: seq<Item>, render: Json -> string)
    requires AllResults(results) && results != []
    ensures AllResults(Init(results)) && Last(results).ToolResult?
    ensures AnswersOf(results, render) == AnswersOf(Init(results), render) + [ItemMessage(Last(results), render)]
  {
  }

  lemma RenderNext(h: seq<Item>, xs: seq<Item>, start: seq<ChatMessage>, render: Json -> string)
    requires xs != []
    ensures Render(h + xs, start, render) == Step(Render(h + Init(xs), start, render), Last(xs), render)
  {
    assert Init(h + xs) == h + Init(xs) && Last(h + xs) == Last(xs);
  }

  // A call opens a group, and the calls that directly follow it join the group.
  lemma StepCall(messages: seq<ChatMessage>, calls: seq<FunctionCall>, x: Item, render: Json -> string)
    requires x.ToolCall?
    ensures var call := CallOfItem(x, render);
            && Step(ChatState(messages, None), x, render) == ChatState(messages + [ToolCalls([call])], Some(|messages|))
            && Step(ChatState(messages + [ToolCalls(calls)], Some(|messages|)), x, render)
               == ChatState(messages + [ToolCalls(calls + [call])], Some(|messages|))
  {
  }

  lemma {:induction false} RenderCalls(h: seq<Item>, calls: seq<Item>, start: seq<ChatMessage>, render: Json -> string)
    requires AllCalls(calls) && calls != [] && Render(h, start, render).toolGroup == None
    ensures var s := Render(h, start, render);
      Render(h + calls, start, render) == ChatState(s.messages + [ToolCalls(CallsOf(calls, render))],
        Some(|s.messages|))
  {
    var messages, init := Render(h, start, render).messages, Init(calls);
    CallsOfSnoc(calls, render);
    RenderNext(h, calls, start, render);
    StepCall(messages, CallsOf(init, render), Last(calls), render);
    if init == [] {
      assert h + init == h && CallsOf(init, render) == [];
      assert CallsOf(calls, render) == [CallOfItem(Last(calls), render)];
    } else {
      RenderCalls(h, init, start, render);
    }
  }

  lemma StepOther(s: ChatState, x: Item, render: Json -> string)
    requires GroupOk(s) && !x.ToolCall?
    ensures Step(s, x, render) == ChatState(s.messages + [ItemMessage(x, render)], None)
  {
  }

  lemma {:induction false} RenderResults(h: seq<Item>, results: seq<Item>, start: seq<ChatMessage>,
                                         render: Json -> string)
    requires AllResults(results)
    ensures Render(h + results, start, render).messages ==
            Render(h, start, render).messages + AnswersOf(results, render)
    ensures results != [] ==> Render(h + results, start, render).toolGroup == None
  {
    if results == [] {
      assert h + results == h && AnswersOf(results, render) == [];
    } else {
      var init, x := Init(results), Last(results);
      AnswersOfSnoc(results, render);
      RenderNext(h, results, start, render);
      RenderResults(h, init, start, render);
      StepOther(Render(h + init, start, render), x, render);
      Concat(Render(h, start, render).messages, AnswersOf(init, render), [ItemMessage(x, render)]);
    }
  }

  lemma {:induction false} FunctionIdsOf(calls: seq<Item>, render: Json -> string)
    requires AllCalls(calls)
    ensures FunctionIds(CallsOf(calls, render)) == IdList(calls)
  {
    if calls != [] {
      FunctionIdsOf(Init(calls), render);
      assert CallsOf(calls, render)[..|calls| - 1] == CallsOf(Init(calls), render);
    }
  }

  lemma {:induction false} AnswerIdsOf(results: seq<Item>, render: Json -> string)
    requires AllResults(results)
    ensures AnswerIds(AnswersOf(results, render)) == IdList(results)
  {
    if results != [] {
      AnswerIdsOf(Init(results), render);
      assert AnswersOf(results, render)[..|results| - 1] == AnswersOf(Init(results), render);
    }
  }

  lemma BatchSegment(h: seq<Item>, calls: seq<Item>, results: seq<Item>, start: seq<ChatMessage>,
                     render: Json -> string)
    returns (s: Segment)
    requires ValidBatch(calls, results) && Render(h, start, render).toolGroup == None
    ensures SegmentOf(Batch(calls, results), s, render)
    ensures Render(h + (calls + results), start, render).toolGroup == None
    ensures Render(h + (calls + results), start, render).messages ==
            Render(h, start, render).messages + SegmentMessages(s)
  {
    s := Exchange(CallsOf(calls, render), AnswersOf(results, render));
    BatchCarried(calls, results, render);
    assert results != [] && SameIds(FunctionIds(s.calls), AnswerIds(s.answers)) by {
      BatchSameIds(calls, results);
      FunctionIdsOf(calls, render);
      AnswerIdsOf(results, render);
    }
    RenderBatch(h, calls, results, start, render);
  }

  lemma BatchCarried(calls: seq<Item>, results: seq<Item>, render: Json -> string)
    requires AllCalls(calls) && AllResults(results)
    ensures forall i | 0 <= i < |calls| :: CarriesCall(calls[i], CallsOf(calls, render)[i], render)
    ensures forall i | 0 <= i < |results| ::
              Carries(results[i], AnswersOf(results, render)[i], render) && AnswersOf(results, render)[i].Tool?
  {
  }

  lemma RenderBatch(h: seq<Item>, calls: seq<Item>, results: seq<Item>, start: seq<ChatMessage>, render: Json -> string)
    requires AllCalls(calls) && AllResults(results) && calls != [] && results != []
    requires Render(h, start, render).toolGroup == None
    ensures Render(h + (calls + results), start, render).toolGroup == None
    ensures Render(h + (calls + results), start, render).messages
         == Render(h, start, render).messages
           + SegmentMessages(Exchange(CallsOf(calls, render), AnswersOf(results, render)))
  {
    assert h + (calls + results) == h + calls + results;
    RenderCalls(h, calls, start, render);
    RenderResults(h + calls, results, start, render);
    Concat(Render(h, start, render).messages, [ToolCalls(CallsOf(calls, render))], AnswersOf(results, render));
  }

  lemma Concat(a: seq<ChatMessage>, b: seq<ChatMessage>, c: seq<ChatMessage>)
    ensures a + b + c == a + (b + c)
  {
  }

  lemma {:induction false} BlocksAreSegments(bs: seq<Block>, start: seq<ChatMessage>, render: Json -> string)
    returns (segments: seq<Segment>)
    requires ValidBlocks(bs)
    ensures Render(Flatten(bs), start, render) == ChatState(start + Joined(segments), None)
    ensures Exchanges(bs, segments, render)
  {
    if bs == [] {
      segments := [];
      assert start + Joined(segments) == start;
      return;
    }
    var n := |bs| - 1;
    var before := BlocksAreSegments(bs[..n], start, render);
    var h := Flatten(bs[..n]);
    var s := BlockSegment(h, bs[n], start, render);
    segments := before + [s];
    assert Flatten(bs) == h + BlockItems(bs[n]) && Render(h, start, render) == ChatState(start + Joined(before), None);
    JoinedAppend(start, before, s);
    ExchangesAppend(bs, before, s, render);
  }

  lemma ExchangesAppend(bs: seq<Block>, before: seq<Segment>, s: Segment, render: Json -> string)
    requires bs != [] && Exchanges(bs[..|bs| - 1], before, render) && SegmentOf(bs[|bs| - 1], s, render)
    ensures Exchanges(bs, before + [s], render)
  {
    forall i | 0 <= i < |bs| ensures SegmentOf(bs[i], (before + [s])[i], render) {
      if i < |before| { assert bs[i] == bs[..|before|][i]; }
    }
  }

  lemma BlockSegment(h: seq<Item>, b: Block, start: seq<ChatMessage>, render: Json -> string) returns (s: Segment)
    requires ValidBlock(b) && Render(h, start, render).toolGroup == None
    ensures SegmentOf(b, s, render)
    ensures Render(h + BlockItems(b), start, render)
         == ChatState(Render(h, start, render).messages + SegmentMessages(s), None)
  {
    match b {
      case Message(x) =>
        Snoc(h, x);
        s := Single(ItemMessage(x, render));
      case Batch(calls, results) =>
        s := BatchSegment(h, calls, results, start, render);
    }
  }

  lemma JoinedAppend(start: seq<ChatMessage>, segments: seq<Segment>, s: Segment)
    ensures start + Joined(segments + [s]) == start + Joined(segments) + SegmentMessages(s)
  {
    assert (segments + [s])[..|segments|] == segments;
  }

  // Every accepted history renders as its own blocks: no two batches are merged, none is
  // split, and each call message is directly followed by one answer per call.
  lemma AcceptedIsPaired(history: seq<Item>, start: seq<ChatMessage>, render: Json -> string)
    requires Accepts(history)
    ensures PairedRendering(history, start, Render(history, start, render).messages, render)
  {
    AcceptsIffConversational(history);
    var bs :| ValidBlocks(bs) && Flatten(bs) == history && UniqueCalls(history);
    var segments := BlocksAreSegments(bs, start, render);
  }
}
