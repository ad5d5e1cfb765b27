// The per-step validator that stands between a provider's event stream and the
// session history.
module ModelStep {
  import opened Basics
  import opened Conversation

  datatype Usage = Usage(inputTokens: nat, outputTokens: nat, reasoningTokens: nat, cacheRead: nat)

  datatype ModelEvent =
    | ItemStarted(itemId: string, itemType: string, phase: Option<Phase>)
    | TextDelta(itemId: string, delta: string)
    | ReasoningDelta(itemId: string, delta: string)
    | ReasoningSignature(itemId: string, signature: string)
    | ToolCallDelta(itemId: string, callId: string, delta: string)
    | ItemCompleted(item: Item)
    | StepFinished(usage: Usage)

  datatype StepError =
    | EventAfterCompletion
    | UnfinishedItems
    | NonModelItem
    | DuplicateItemId
    | BlankCall
    | DuplicateCallId
    | UnknownItemType
    | DuplicateStart
    | DeltaAfterCompletion
    | DeltaTypeChanged

  datatype StepView = StepView(finished: bool, itemIds: set<string>, callIds: set<string>, pending: map<string, string>)

  function ItemIds(items: seq<Item>): set<string> {
    if items == [] then {} else ItemIds(Init(items)) + {Last(items).id}
  }

  function StartView(history: seq<Item>): StepView {
    StepView(false, ItemIds(history), CallIds(history), map[])
  }

  function DeltaKind(e: ModelEvent): string
    requires e.TextDelta? || e.ReasoningDelta? || e.ReasoningSignature? || e.ToolCallDelta?
  {
    match e
    case TextDelta(_, _) => "assistant_message"
    case ToolCallDelta(_, _, _) => "tool_call"
    case _ => "reasoning"
  }

  // The error of an event, or none, and the state it leaves behind.
  function ObserveEvent(v: StepView, e: ModelEvent): (StepView, Option<StepError>) {
    if v.finished then (v, Some(EventAfterCompletion))
    else match e
      case StepFinished(_) =>
        if exists id | id in v.pending :: v.pending[id] != "assistant_message" then (v, Some(UnfinishedItems))
        else (v.(finished := true), None)
      case ItemCompleted(item) =>
        if item.UserMessage? || item.ToolResult? then (v, Some(NonModelItem))
        else if item.id in v.itemIds then (v, Some(DuplicateItemId))
        else
          var w := v.(itemIds := v.itemIds + {item.id});
          if item.ToolCall? && (Blank(item.callId) || Blank(item.name)) then (w, Some(BlankCall))
          else if item.ToolCall? && item.callId in w.callIds then (w, Some(DuplicateCallId))
          else
            var u := if item.ToolCall? then w.(callIds := w.callIds + {item.callId}) else w;
            (u.(pending := u.pending - {item.id}), None)
      case ItemStarted(id, itemType, _) =>
        if itemType != "assistant_message" && itemType != "reasoning" && itemType != "tool_call" then
          (v, Some(UnknownItemType))
        else if id in v.itemIds || id in v.pending then (v, Some(DuplicateStart))
        else (v.(pending := v.pending[id := itemType]), None)
      case _ =>
        if e.itemId in v.itemIds then (v, Some(DeltaAfterCompletion))
        else if e.itemId in v.pending then
          (v, if v.pending[e.itemId] != DeltaKind(e) then Some(DeltaTypeChanged) else None)
        else (v.(pending := v.pending[e.itemId := DeltaKind(e)]), None)
  }

  // The state after a whole stream of events, if each of them is accepted.
  function ObserveAll(history: seq<Item>, events: seq<ModelEvent>): Option<StepView> {
    if events == [] then Some(StartView(history))
    else match ObserveAll(history, events[..|events| - 1])
      case None => None
      case Some(v) =>
        var (w, error) := ObserveEvent(v, events[|events| - 1]);
        if error.None? then Some(w) else None
  }

  class ModelStepState {
    var finished: bool
    var itemIds: set<string>
    var callIds: set<string>
    var pending: map<string, string>

    function View(): StepView
      reads this
    {
      StepView(finished, itemIds, callIds, pending)
    }

    constructor (history: seq<Item>)
      ensures View() == StartView(history)
    {
      finished, pending := false, map[];
      itemIds, callIds := ItemIds(history), CallIds(history);
    }

    method Observe(event: ModelEvent) returns (error: Option<StepError>)
      modifies this
      ensures (View(), error) == ObserveEvent(old(View()), event)
    {
      if finished { return Some(EventAfterCompletion); }
      match event {
        case StepFinished(_) =>
          if exists id | id in pending :: pending[id] != "assistant_message" { return Some(UnfinishedItems); }
          finished := true;
        case ItemCompleted(item) =>
          if item.UserMessage? || item.ToolResult? { return Some(NonModelItem); }
          if item.id in itemIds { return Some(DuplicateItemId); }
          itemIds := itemIds + {item.id};
          if item.ToolCall? {
            if Blank(item.callId) || Blank(item.name) { return Some(BlankCall); }
            if item.callId in callIds { return Some(DuplicateCallId); }
            callIds := callIds + {item.callId};
          }
          pending := pending - {item.id};
        case ItemStarted(id, itemType, _) =>
          if itemType != "assistant_message" && itemType != "reasoning" && itemType != "tool_call" {
            return Some(UnknownItemType);
          }
          if id in itemIds || id in pending { return Some(DuplicateStart); }
          pending := pending[id := itemType];
        case _ =>
          if event.itemId in itemIds { return Some(DeltaAfterCompletion); }
          var kind := DeltaKind(event);
          if event.itemId !in pending { pending := pending[event.itemId := kind]; }
          if pending[event.itemId] != kind { return Some(DeltaTypeChanged); }
      }
      return None;
    }
  }
}
