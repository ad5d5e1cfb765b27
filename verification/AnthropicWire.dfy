// Rendering a conversation as Anthropic messages: blocks of one role are merged
// into one message, and a tool batch becomes an assistant tail and a user head.
module AnthropicWire {
  import opened Basics
  import opened CanonicalJson
  import opened Conversation
  import opened Context

  datatype Role = User | Assistant

  datatype WireBlock =
    | TextBlock(text: string)
    | ImageData(mediaType: string, data: string)
    | ImageUrl(url: string)
    | Thinking(thinking: string, signature: Option<string>)
    | ToolUse(id: string, name: string, input: Json)
    | ToolAnswer(toolUseId: string, content: AnswerContent, isError: bool)

  datatype AnswerContent = Plain(text: string) | Parts(parts: seq<WireBlock>)

  datatype WireMessage = WireMessage(role: Role, content: seq<WireBlock>)

  // The JSON parser and printer the serializer calls.
  datatype JsonCodec = JsonCodec(parse: string -> Option<Json>, render: Json -> string)

  function ContentBlocks(content: seq<Content>, images: bool): seq<WireBlock> {
    FlatMap(content, (c: Content) => ContentBlock(c, images))
  }

  // Text is always sent; an image only where images are allowed and a source is present; audio never.
  function ContentBlock(c: Content, images: bool): seq<WireBlock> {
    match c
    case Text(text) => [TextBlock(text)]
    case Image(mime, Some(data), _) => if images then [ImageData(mime, data)] else []
    case Image(_, None, Some(uri)) => if images then [ImageUrl(uri)] else []
    case _ => []
  }

  function CallInput(x: Item, codec: JsonCodec): Json
    requires x.ToolCall?
  {
    match x.arguments
    case Some(args) => args
    case None =>
      match codec.parse(x.rawArguments)
      case Some(parsed) => parsed
      case None => Object([])
  }

  function Answer(output: ToolOutput, codec: JsonCodec): AnswerContent {
    match output
    case TextOutput(text) => Plain(text)
    case Structured(value) => Plain(codec.render(value))
    case Blocks(blocks) => Parts(ContentBlocks(blocks, true))
  }

  function RoleOf(x: Item): Role {
    if x.UserMessage? || x.ToolResult? then User else Assistant
  }

  function ItemBlocks(x: Item, codec: JsonCodec): seq<WireBlock> {
    match x
    case UserMessage(_, content) => ContentBlocks(content, true)
    case AssistantMessage(_, content, _) => ContentBlocks(content, false)
    case Reasoning(_, thinking, signature, _) => [Thinking(thinking, signature)]
    case ToolCall(_, callId, _, name, _, _) => [ToolUse(callId, name, CallInput(x, codec))]
    case ToolResult(_, callId, output, isError) => [ToolAnswer(callId, Answer(output, codec), isError)]
  }

  function AllBlocks(items: seq<Item>, codec: JsonCodec): seq<WireBlock> {
    FlatMap(items, (x: Item) => ItemBlocks(x, codec))
  }

  // The blocks of a content list are those of its parts, in order: of a text, its text; of an image, where
  // images are sent, its data or else where it is to be found; of anything else, nothing.
  lemma ContentJoins(a: seq<Content>, b: seq<Content>, c: Content, images: bool)
    ensures ContentBlocks([], images) == []
    ensures ContentBlocks(a + b, images) == ContentBlocks(a, images) + ContentBlocks(b, images)
    ensures c.Text? ==> ContentBlocks([c], images) == [TextBlock(c.text)]
    ensures c.Image? && images && c.data.Some? ==> ContentBlocks([c], images) == [ImageData(c.mimeType, c.data.value)]
    ensures c.Image? && images && c.data.None? && c.uri.Some? ==> ContentBlocks([c], images) == [ImageUrl(c.uri.value)]
    ensures c.Audio? || (c.Image? && (!images || (c.data.None? && c.uri.None?))) ==> ContentBlocks([c], images) == []
  {
    FlatMapOne(c, (x: Content) => ContentBlock(x, images));
    FlatMapJoins(a, b, (x: Content) => ContentBlock(x, images));
  }

  method CollectBlocks(content: seq<Content>, images: bool) returns (blocks: seq<WireBlock>)
    ensures blocks == ContentBlocks(content, images)
  {
    blocks := [];
    for k := 0 to |content|
      invariant blocks == ContentBlocks(content[..k], images)
    {
      assert content[..k + 1][..k] == content[..k];
      match content[k] {
        case Text(text) => blocks := blocks + [TextBlock(text)];
        case Image(mime, data, uri) =>
          if images && data.Some? {
            blocks := blocks + [ImageData(mime, data.value)];
          } else if images && uri.Some? {
            blocks := blocks + [ImageUrl(uri.value)];
          }
        case Audio(_, _, _) =>
      }
    }
    assert content[..|content|] == content;
  }

  // The text that blocks carry.
  function BlockText(blocks: seq<WireBlock>): string {
    FlatMap(blocks, TextOfBlock)
  }

  function TextOfBlock(b: WireBlock): string {
    if b.TextBlock? then b.text else ""
  }

  // A message carries the text of its content, whatever becomes of the rest.
  lemma {:induction false} ContentText(content: seq<Content>, images: bool)
    ensures BlockText(ContentBlocks(content, images)) == PlainText(content)
  {
    if content != [] {
      var init, c := content[..|content| - 1], content[|content| - 1];
      ContentText(init, images);
      FlatMapJoins(ContentBlocks(init, images), ContentBlock(c, images), TextOfBlock);
      PartText(c, images);
    }
  }

  lemma PartText(c: Content, images: bool)
    ensures BlockText(ContentBlock(c, images)) == TextOf(c)
  {
    if ContentBlock(c, images) != [] {
      assert ContentBlock(c, images) == [ContentBlock(c, images)[0]];
      FlatMapOne(ContentBlock(c, images)[0], TextOfBlock);
    }
  }

  // What an item sends.
  ghost predicate Sends(x: Item, blocks: seq<WireBlock>, codec: JsonCodec) {
    match x
    case UserMessage(_, content) => blocks == ContentBlocks(content, true) && BlockText(blocks) == PlainText(content)
    case AssistantMessage(_, content, _) =>
      blocks == ContentBlocks(content, false) && BlockText(blocks) == PlainText(content)
    case Reasoning(_, thinking, signature, _) => blocks == [Thinking(thinking, signature)]
    case ToolCall(_, callId, _, name, arguments, raw) =>
      && |blocks| == 1 && blocks[0].ToolUse? && blocks[0].id == callId && blocks[0].name == name
      && (arguments.Some? ==> blocks[0].input == arguments.value)
      && (arguments.None? && codec.parse(raw).Some? ==> blocks[0].input == codec.parse(raw).value)
      && (arguments.None? && codec.parse(raw).None? ==> blocks[0].input == Object([]))
    case ToolResult(_, callId, output, isError) =>
      && |blocks| == 1 && blocks[0].ToolAnswer? && blocks[0].toolUseId == callId && blocks[0].isError == isError
      && (output.TextOutput? ==> blocks[0].content == Plain(output.text))
      && (output.Structured? ==> blocks[0].content == Plain(codec.render(output.value)))
      && (output.Blocks? ==> blocks[0].content == Parts(ContentBlocks(output.blocks, true)))
  }

  lemma ItemSends(x: Item, codec: JsonCodec)
    ensures Sends(x, ItemBlocks(x, codec), codec)
  {
    if x.UserMessage? { ContentText(x.content, true); }
    if x.AssistantMessage? { ContentText(x.content, false); }
  }

  function Push(messages: seq<WireMessage>, role: Role, blocks: seq<WireBlock>): seq<WireMessage> {
    var n := |messages| - 1;
    if messages != [] && messages[n].role == role
    then messages[n := WireMessage(role, messages[n].content + blocks)]
    else messages + [WireMessage(role, blocks)]
  }

  function Messages(items: seq<Item>, codec: JsonCodec): seq<WireMessage> {
    if items == [] then []
    else
      var before := Messages(Init(items), codec);
      var blocks := ItemBlocks(Last(items), codec);
      if blocks == [] then before else Push(before, RoleOf(Last(items)), blocks)
  }

  // push_or_merge_message
  method PushOrMergeMessage(messages: seq<WireMessage>, role: Role,
                            blocks: seq<WireBlock>) returns (r: seq<WireMessage>)
    ensures r == Push(messages, role, blocks)
  {
    r := messages;
    if r != [] {
      var lastMessage := r[|r| - 1];
      if lastMessage.role == role {
        r := r[|r| - 1 := lastMessage.(content := lastMessage.content + blocks)];
        return;
      }
    }
    r := r + [WireMessage(role, blocks)];
  }

  // The history loop of serialize_request.
  method SerializeHistory(history: seq<Item>, codec: JsonCodec) returns (messages: seq<WireMessage>)
    ensures messages == Messages(history, codec)
    ensures Alternating(messages) && Said(messages) == AllSaid(history, codec)
    ensures Accepts(history) ==> Paired(messages)
  {
    messages := [];
    for k := 0 to |history|
      invariant messages == Messages(history[..k], codec)
    {
      var item := history[k];
      assert Init(history[..k + 1]) == history[..k];
      match item {
        case UserMessage(_, content) =>
          var blocks := CollectBlocks(content, true);
          if blocks != [] { messages := PushOrMergeMessage(messages, User, blocks); }
        case Reasoning(_, thinking, signature, _) =>
          messages := PushOrMergeMessage(messages, Assistant, [Thinking(thinking, signature)]);
        case AssistantMessage(_, content, _) =>
          var blocks := CollectBlocks(content, false);
          if blocks != [] { messages := PushOrMergeMessage(messages, Assistant, blocks); }
        case ToolCall(_, callId, _, name, _, _) =>
          messages := PushOrMergeMessage(messages, Assistant, [ToolUse(callId, name, CallInput(item, codec))]);
        case ToolResult(_, callId, output, isError) =>
          var answer: AnswerContent;
          match output {
            case TextOutput(text) => answer := Plain(text);
            case Structured(value) => answer := Plain(codec.render(value));
            case Blocks(parts) =>
              var blocks := CollectBlocks(parts, true);
              answer := Parts(blocks);
          }
          messages := PushOrMergeMessage(messages, User, [ToolAnswer(callId, answer, isError)]);
      }
    }
    assert history[..|history|] == history;
    MessagesKeepBlocks(history, codec);
    if Accepts(history) { AcceptedIsPaired(history, codec); }
  }

  // ---- What every rendering keeps ----

  // Roles strictly alternate and no message is empty.
  predicate Alternating(messages: seq<WireMessage>) {
    && (forall i | 0 <= i < |messages| :: messages[i].content != [])
    && (forall i | 0 < i < |messages| :: messages[i - 1].role != messages[i].role)
  }

  // The blocks of messages, each with the role that sends it.
  function SaidBy(role: Role, blocks: seq<WireBlock>): seq<(Role, WireBlock)> {
    Each(blocks, (b: WireBlock) => (role, b))
  }

  function Said(messages: seq<WireMessage>): seq<(Role, WireBlock)> {
    FlatMap(messages, (m: WireMessage) => SaidBy(m.role, m.content))
  }

  // The blocks of items: the user's messages and the results of tools are the user's, the rest is not.
  function AllSaid(items: seq<Item>, codec: JsonCodec): seq<(Role, WireBlock)> {
    FlatMap(items, (x: Item) => SaidBy(RoleOf(x), ItemBlocks(x, codec)))
  }

  // One item after the other.
  lemma SaidJoins(a: seq<Item>, b: seq<Item>, x: Item, codec: JsonCodec)
    ensures AllSaid([], codec) == [] && AllSaid(a + b, codec) == AllSaid(a, codec) + AllSaid(b, codec)
    ensures x.UserMessage? || x.ToolResult? ==> AllSaid([x], codec) == SaidBy(User, ItemBlocks(x, codec))
    ensures !(x.UserMessage? || x.ToolResult?) ==> AllSaid([x], codec) == SaidBy(Assistant, ItemBlocks(x, codec))
  {
    var f := (y: Item) => SaidBy(RoleOf(y), ItemBlocks(y, codec));
    FlatMapOne(x, f);
    FlatMapJoins(a, b, f);
  }

  lemma PushAlternates(messages: seq<WireMessage>, role: Role, blocks: seq<WireBlock>)
    requires Alternating(messages) && blocks != []
    ensures Alternating(Push(messages, role, blocks))
  {
  }

  lemma PushKeepsBlocks(messages: seq<WireMessage>, role: Role, blocks: seq<WireBlock>)
    ensures Said(Push(messages, role, blocks)) == Said(messages) + SaidBy(role, blocks)
  {
    var n := |messages| - 1;
    var r := Push(messages, role, blocks);
    if |r| == |messages| {
      assert r[..n] == messages[..n];
      assert SaidBy(role, messages[n].content + blocks) == SaidBy(role, messages[n].content) + SaidBy(role, blocks);
    } else {
      assert r[..|messages|] == messages;
    }
  }

  // The messages hold exactly the blocks of the items, in order and with their roles, for any history.
  lemma {:induction false} MessagesKeepBlocks(items: seq<Item>, codec: JsonCodec)
    ensures Alternating(Messages(items, codec))
    ensures Said(Messages(items, codec)) == AllSaid(items, codec)
  {
    if items != [] {
      MessagesKeepBlocks(Init(items), codec);
      var blocks := ItemBlocks(Last(items), codec);
      if blocks != [] {
        PushAlternates(Messages(Init(items), codec), RoleOf(Last(items)), blocks);
        PushKeepsBlocks(Messages(Init(items), codec), RoleOf(Last(items)), blocks);
      }
    }
  }

  // ---- Tool pairing ----

  predicate PlainBlocks(blocks: seq<WireBlock>) {
    forall i | 0 <= i < |blocks| :: !blocks[i].ToolUse? && !blocks[i].ToolAnswer?
  }

  function TrailingUses(blocks: seq<WireBlock>): (n: nat)
    ensures n <= |blocks|
  {
    if blocks != [] && blocks[|blocks| - 1].ToolUse? then 1 + TrailingUses(blocks[..|blocks| - 1]) else 0
  }

  function LeadingAnswers(blocks: seq<WireBlock>): (n: nat)
    ensures n <= |blocks|
  {
    if blocks != [] && blocks[0].ToolAnswer? then 1 + LeadingAnswers(blocks[1..]) else 0
  }

  function BlockId(b: WireBlock): string {
    match b
    case ToolUse(id, _, _) => id
    case ToolAnswer(id, _, _) => id
    case _ => []
  }

  function BlockIds(blocks: seq<WireBlock>): (r: seq<string>)
    ensures |r| == |blocks|
  {
    if blocks == [] then [] else BlockIds(blocks[..|blocks| - 1]) + [BlockId(blocks[|blocks| - 1])]
  }

  // The tool uses an assistant message ends with.
  function UseIds(m: WireMessage): seq<string> {
    if m.role == Assistant then BlockIds(m.content[|m.content| - TrailingUses(m.content)..]) else []
  }

  // The tool answers a user message starts with.
  function AnswerIds(m: WireMessage): seq<string> {
    if m.role == User then BlockIds(m.content[..LeadingAnswers(m.content)]) else []
  }

  // Tool uses only at the end of assistant messages, answers only at the start of user messages.
  predicate Shaped(m: WireMessage) {
    if m.role == Assistant then PlainBlocks(m.content[..|m.content| - TrailingUses(m.content)])
    else PlainBlocks(m.content[LeadingAnswers(m.content)..])
  }

  // The answers opening each message are one answer for each tool use closing the message
  // before it; nothing is answered before the first message, and the uses closing the last
  // one are those still owed an answer.
  ghost predicate PairedUpTo(messages: seq<WireMessage>, owed: seq<string>) {
    && (forall i | 0 <= i < |messages| :: Shaped(messages[i]))
    && (if messages == [] then owed == [] else AnswerIds(messages[0]) == [] && UseIds(messages[|messages| - 1]) == owed)
    && (forall i | 0 < i < |messages| :: SameIds(UseIds(messages[i - 1]), AnswerIds(messages[i])))
  }

  ghost predicate Paired(messages: seq<WireMessage>) {
    PairedUpTo(messages, [])
  }

  lemma {:induction false} UsesTail(a: seq<WireBlock>, b: seq<WireBlock>)
    requires forall i | 0 <= i < |b| :: b[i].ToolUse?
    ensures TrailingUses(a + b) == TrailingUses(a) + |b|
  {
    if b == [] {
      assert a + b == a;
    } else {
      var n := |b| - 1;
      assert (a + b)[..|a| + n] == a + b[..n];
      UsesTail(a, b[..n]);
    }
  }

  lemma {:induction false} AnswersHead(a: seq<WireBlock>, b: seq<WireBlock>)
    requires forall i | 0 <= i < |a| :: a[i].ToolAnswer?
    requires PlainBlocks(b)
    ensures LeadingAnswers(a + b) == |a|
  {
    if a == [] {
      assert a + b == b;
    } else {
      assert (a + b)[1..] == a[1..] + b;
      AnswersHead(a[1..], b);
    }
  }

  lemma {:induction false} LeadingAre(blocks: seq<WireBlock>)
    ensures forall i | 0 <= i < LeadingAnswers(blocks) :: blocks[i].ToolAnswer?
  {
    if blocks != [] && blocks[0].ToolAnswer? {
      LeadingAre(blocks[1..]);
      forall i | 0 < i < LeadingAnswers(blocks) ensures blocks[i].ToolAnswer? {
        assert blocks[i] == blocks[1..][i - 1];
      }
    }
  }

  // Ordinary blocks at the end of a message leave its tool ends alone.
  lemma MergePlain(m: WireMessage, blocks: seq<WireBlock>)
    requires Shaped(m) && UseIds(m) == [] && PlainBlocks(blocks)
    ensures var m' := WireMessage(m.role, m.content + blocks);
      Shaped(m') && UseIds(m') == [] && AnswerIds(m') == AnswerIds(m)
  {
    var m' := WireMessage(m.role, m.content + blocks);
    if m.role == Assistant {
      assert TrailingUses(m.content) == |UseIds(m)| == 0;
      assert m.content[..|m.content|] == m.content;
      assert PlainBlocks(m'.content);
      assert m'.content[..|m'.content|] == m'.content;
    } else {
      var a, b := m.content[..LeadingAnswers(m.content)], m.content[LeadingAnswers(m.content)..] + blocks;
      LeadingAre(m.content);
      AnswersHead(a, b);
      assert m'.content == a + b;
      assert m'.content[..|a|] == a && m'.content[|a|..] == b;
    }
  }

  lemma MergeUses(m: WireMessage, uses: seq<WireBlock>)
    requires m.role == Assistant && Shaped(m) && UseIds(m) == []
    requires AllUses(uses)
    ensures var m' := WireMessage(m.role, m.content + uses); Shaped(m') && UseIds(m') == BlockIds(uses)
  {
    var m' := WireMessage(m.role, m.content + uses);
    assert TrailingUses(m.content) == |UseIds(m)| == 0;
    assert m.content[..|m.content|] == m.content;
    UsesTail(m.content, uses);
    assert m'.content[..|m.content|] == m.content && m'.content[|m.content|..] == uses;
  }

  lemma FreshAnswers(answers: seq<WireBlock>)
    requires AllAnswers(answers)
    ensures var m := WireMessage(User, answers); Shaped(m) && AnswerIds(m) == BlockIds(answers)
  {
    AnswersHead(answers, []);
    assert answers + [] == answers && answers[..|answers|] == answers && answers[|answers|..] == [];
  }

  lemma ReplaceLast(messages: seq<WireMessage>, m: WireMessage, owed: seq<string>)
    requires messages != [] && PairedUpTo(messages, owed)
    requires Shaped(m) && AnswerIds(m) == AnswerIds(messages[|messages| - 1])
    ensures PairedUpTo(messages[|messages| - 1 := m], UseIds(m))
  {
    var n := |messages| - 1;
    var r := messages[n := m];
    assert AnswerIds(r[0]) == [] && UseIds(r[n]) == UseIds(m) by { assert n > 0 ==> r[0] == messages[0]; }
    forall i | 0 <= i < |r| ensures Shaped(r[i]) { assert i < n ==> r[i] == messages[i]; }
    forall i | 0 < i < |r| ensures SameIds(UseIds(r[i - 1]), AnswerIds(r[i])) {
      assert SameIds(UseIds(messages[i - 1]), AnswerIds(messages[i]));
      assert r[i - 1] == messages[i - 1] && (i < n ==> r[i] == messages[i]);
    }
  }

  lemma AddMessage(messages: seq<WireMessage>, m: WireMessage, owed: seq<string>)
    requires PairedUpTo(messages, owed) && Shaped(m)
    requires if messages == [] then AnswerIds(m) == [] else SameIds(owed, AnswerIds(m))
    ensures PairedUpTo(messages + [m], UseIds(m))
  {
    var r := messages + [m];
    assert messages != [] ==> r[0] == messages[0];
    forall i | 0 <= i < |r| ensures Shaped(r[i]) { assert i < |messages| ==> r[i] == messages[i]; }
    forall i | 0 < i < |r| ensures SameIds(UseIds(r[i - 1]), AnswerIds(r[i])) {
      if i < |messages| { assert r[i - 1] == messages[i - 1] && r[i] == messages[i]; }
    }
  }

  // Ordinary blocks never disturb the pairing.
  lemma PushPlain(messages: seq<WireMessage>, role: Role, blocks: seq<WireBlock>)
    requires Paired(messages) && PlainBlocks(blocks)
    ensures Paired(Push(messages, role, blocks))
  {
    var n := |messages| - 1;
    if messages != [] && messages[n].role == role {
      MergePlain(messages[n], blocks);
      ReplaceLast(messages, WireMessage(role, messages[n].content + blocks), []);
    } else {
      MergePlain(WireMessage(role, []), blocks);
      assert [] + blocks == blocks;
      AddMessage(messages, WireMessage(role, blocks), []);
    }
  }

  // The uses of a batch close one assistant message.
  lemma PushUses(messages: seq<WireMessage>, uses: seq<WireBlock>)
    requires Paired(messages) && AllUses(uses)
    ensures PairedUpTo(Push(messages, Assistant, uses), BlockIds(uses))
  {
    var n := |messages| - 1;
    if messages != [] && messages[n].role == Assistant {
      MergeUses(messages[n], uses);
      ReplaceLast(messages, WireMessage(Assistant, messages[n].content + uses), []);
    } else {
      MergeUses(WireMessage(Assistant, []), uses);
      assert [] + uses == uses;
      AddMessage(messages, WireMessage(Assistant, uses), []);
    }
  }

  // Its answers open the next user message.
  lemma PushAnswers(messages: seq<WireMessage>, owed: seq<string>, answers: seq<WireBlock>)
    requires PairedUpTo(messages, owed) && owed != [] && AllAnswers(answers)
    requires SameIds(owed, BlockIds(answers))
    ensures Paired(Push(messages, User, answers))
  {
    FreshAnswers(answers);
    AddMessage(messages, WireMessage(User, answers), owed);
  }

  // A run of calls, or of results, is pushed as one piece.
  lemma {:induction false} RenderRun(h: seq<Item>, run: seq<Item>, codec: JsonCodec)
    requires run != [] && (AllCalls(run) || AllResults(run))
    ensures Messages(h + run, codec) == Push(Messages(h, codec), RoleOf(run[0]), AllBlocks(run, codec))
  {
    assert Init(h + run) == h + Init(run) && Last(h + run) == Last(run);
    var role, b := RoleOf(run[0]), ItemBlocks(Last(run), codec);
    assert Messages(h + run, codec) == Push(Messages(h + Init(run), codec), role, b);
    assert AllBlocks(run, codec) == AllBlocks(Init(run), codec) + b;
    if |run| == 1 {
      assert Init(run) == [] && h + [] == h && [] + b == b;
    } else {
      RenderRun(h, Init(run), codec);
      PushTwice(Messages(h, codec), role, AllBlocks(Init(run), codec), b);
    }
  }

  lemma PushTwice(messages: seq<WireMessage>, role: Role, a: seq<WireBlock>, b: seq<WireBlock>)
    ensures Push(Push(messages, role, a), role, b) == Push(messages, role, a + b)
  {
    var n := |messages| - 1;
    if messages != [] && messages[n].role == role {
      assert messages[n].content + a + b == messages[n].content + (a + b);
    }
  }

  predicate AllUses(blocks: seq<WireBlock>) {
    forall i | 0 <= i < |blocks| :: blocks[i].ToolUse?
  }

  predicate AllAnswers(blocks: seq<WireBlock>) {
    forall i | 0 <= i < |blocks| :: blocks[i].ToolAnswer?
  }

  // A tool item is one block under its own id.
  lemma ToolBlock(x: Item, codec: JsonCodec)
    requires x.ToolCall? || x.ToolResult?
    ensures |ItemBlocks(x, codec)| == 1 && BlockId(ItemBlocks(x, codec)[0]) == x.callId
    ensures if x.ToolCall? then ItemBlocks(x, codec)[0].ToolUse? else ItemBlocks(x, codec)[0].ToolAnswer?
  {
  }

  lemma BlockIdsSnoc(blocks: seq<WireBlock>, b: WireBlock)
    ensures BlockIds(blocks + [b]) == BlockIds(blocks) + [BlockId(b)]
  {
    assert (blocks + [b])[..|blocks|] == blocks;
  }

  lemma {:induction false} ToolBlocks(run: seq<Item>, codec: JsonCodec)
    requires AllCalls(run) || AllResults(run)
    ensures if AllCalls(run) then AllUses(AllBlocks(run, codec)) else AllAnswers(AllBlocks(run, codec))
    ensures BlockIds(AllBlocks(run, codec)) == IdList(run)
  {
    if run != [] {
      ToolBlocks(Init(run), codec);
      ToolBlock(Last(run), codec);
      var before, b := AllBlocks(Init(run), codec), ItemBlocks(Last(run), codec)[0];
      assert AllBlocks(run, codec) == before + [b];
      BlockIdsSnoc(before, b);
    }
  }

  lemma {:induction false} PlainContent(content: seq<Content>, images: bool)
    ensures PlainBlocks(ContentBlocks(content, images))
  {
    if content != [] { PlainContent(content[..|content| - 1], images); }
  }

  lemma {:induction false} BlocksArePaired(bs: seq<Block>, codec: JsonCodec)
    requires ValidBlocks(bs)
    ensures Paired(Messages(Flatten(bs), codec))
  {
    if bs == [] { return; }
    var n := |bs| - 1;
    var h := Flatten(bs[..n]);
    BlocksArePaired(bs[..n], codec);
    match bs[n] {
      case Message(x) =>
        Snoc(h, x);
        var blocks := ItemBlocks(x, codec);
        if x.UserMessage? { PlainContent(x.content, true); }
        if x.AssistantMessage? { PlainContent(x.content, false); }
        if blocks != [] { PushPlain(Messages(h, codec), RoleOf(x), blocks); }
      case Batch(calls, results) =>
        BatchIsPaired(h, calls, results, codec);
    }
  }

  lemma RenderCalls(h: seq<Item>, calls: seq<Item>, codec: JsonCodec)
    requires Paired(Messages(h, codec)) && calls != [] && AllCalls(calls)
    ensures PairedUpTo(Messages(h + calls, codec), IdList(calls))
  {
    ToolBlocks(calls, codec);
    RenderRun(h, calls, codec);
    PushUses(Messages(h, codec), AllBlocks(calls, codec));
  }

  lemma RenderResults(h: seq<Item>, owed: seq<string>, results: seq<Item>, codec: JsonCodec)
    requires PairedUpTo(Messages(h, codec), owed) && results != [] && AllResults(results)
    requires SameIds(owed, IdList(results)) && owed != []
    ensures Paired(Messages(h + results, codec))
  {
    ToolBlocks(results, codec);
    RenderRun(h, results, codec);
    PushAnswers(Messages(h, codec), owed, AllBlocks(results, codec));
  }

  lemma BatchIsPaired(h: seq<Item>, calls: seq<Item>, results: seq<Item>, codec: JsonCodec)
    requires Paired(Messages(h, codec)) && ValidBatch(calls, results)
    ensures Paired(Messages(h + (calls + results), codec))
  {
    assert h + (calls + results) == h + calls + results;
    assert SameIds(IdList(calls), IdList(results)) && IdList(calls) != [] && results != [] by {
      BatchSameIds(calls, results);
    }
    RenderCalls(h, calls, codec);
    RenderResults(h + calls, IdList(calls), results, codec);
  }

  // For every history the validator accepts, each assistant message's tool uses are its tail
  // and the next message opens with exactly one answer for each of them.
  lemma AcceptedIsPaired(history: seq<Item>, codec: JsonCodec)
    requires Accepts(history)
    ensures Paired(Messages(history, codec))
  {
    AcceptsIffConversational(history);
    var bs :| ValidBlocks(bs) && Flatten(bs) == history && UniqueCalls(history);
    BlocksArePaired(bs, codec);
  }
}
