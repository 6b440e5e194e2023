/**
 * The live lane's fold (packages/protocol/src/live-fold.ts): host and clients hold the same kind of
 * state and apply the same items to it, one after the other.
 */
module LiveFold {
  import opened Prelude
  import opened OrderedMaps

  // ----- Data model

  /** A JSON object, opaque to the fold. */
  type Json = string
  const EMPTY_OBJECT: Json := "{}"

  /** A UI node; the fold only asks whether it is a terminal. */
  datatype UiNode = UiNode(terminal: bool, body: string)
  datatype UiPatchOp = UiPatchOp(raw: string)

  /**
   * The two functions the fold calls and does not define: `parseStreamingJson`, and `applyUiPatch`,
   * which may throw.
   */
  datatype Env = Env(parse: string -> Json, uiPatch: (seq<UiNode>, seq<UiPatchOp>) -> Result<seq<UiNode>>)

  /** Empty argument text parses to the empty object. */
  ghost predicate ValidEnv(env: Env) {
    env.parse("") == EMPTY_OBJECT
  }

  datatype LiveValue =
    | ExtPanel(node: UiNode, rest: string)
    | WorkValue(detail: Option<UiNode>, rest: string)
    | Bash(output: UiNode, rest: string)
    | OtherValue(kind: string, rest: string)

  datatype ToolPresentation = ToolPresentation(summary: Option<seq<UiNode>>, body: Option<seq<UiNode>>, rest: string)
  datatype ToolPresentationPatch = ToolPresentationPatch(summary: Option<seq<UiPatchOp>>, body: Option<seq<UiPatchOp>>)

  datatype Block =
    | Text(text: string, signature: Option<string>)
    | Thinking(thinking: string, redacted: Option<bool>, signature: Option<string>)
    | ToolCall(id: string, name: string, arguments: Json, signature: Option<string>)

  datatype AssistantMessage = AssistantMessage(content: seq<Block>, meta: string)

  /** A message in progress, with the argument text still to be parsed and what is shown for its calls. */
  datatype Assistant = Assistant(
    message: AssistantMessage,
    ended: bool,
    argsText: OMap<int, string>,
    presentations: OMap<string, ToolPresentation>)

  datatype Tool = Tool(
    toolName: string,
    args: Option<Json>,
    partial: Option<string>,
    presentation: Option<ToolPresentation>,
    ended: bool,
    isError: Option<bool>,
    startedAt: Option<int>,
    endedAt: Option<int>)

  datatype LiveState = LiveState(
    basedOn: int,
    values: OMap<string, LiveValue>,
    assistant: Option<Assistant>,
    tools: OMap<string, Tool>)

  datatype Delta =
    | TextStart
    | TextDelta(delta: string)
    | TextEnd(content: string)
    | ThinkingStart(redacted: Option<bool>)
    | ThinkingDelta(delta: string)
    | ThinkingEnd(content: string, redacted: Option<bool>)
    | CallStart(id: string, name: string)
    | CallDelta(argsTextDelta: string, newId: Option<string>, newName: Option<string>)
    | CallEnd(id: string, name: string, arguments: Json, signature: Option<string>)

  datatype ToolOp = Start | Update | End

  datatype ToolItem = ToolItem(
    op: ToolOp,
    toolCallId: string,
    toolName: string,
    args: Option<Json>,
    partial: Option<string>,
    isError: Option<bool>,
    presentation: Option<ToolPresentation>,
    patch: Option<ToolPresentationPatch>,
    startedAt: Option<int>,
    endedAt: Option<int>)

  datatype LiveItem =
    | SetValue(key: string, value: LiveValue)
    | ClearValue(key: string)
    | PatchValue(key: string, ops: seq<UiPatchOp>)
    | AssistantStart(message: AssistantMessage)
    | AssistantDelta(contentIndex: int, event: Delta)
    | AssistantEnd
    | CallPresentation(toolCallId: string, presentation: ToolPresentation)
    | ToolProgress(tool: ToolItem)
    | Ephemeral(raw: string)

  datatype LiveFrame = LiveFrame(basedOn: int, reset: bool, items: seq<LiveItem>)

  datatype LiveCommit = NoCommit | CommitAssistant | CommitTool(toolCallId: string)

  // ----- Patches

  function PatchLiveValue(env: Env, value: LiveValue, ops: seq<UiPatchOp>): Result<LiveValue> {
    match value
    case ExtPanel(node, rest) =>
      var tree := env.uiPatch([node], ops);
      if tree.Err? then Err(tree.error)
      else if |tree.value| != 1 then Err("A panel keeps exactly one node")
      else Ok(ExtPanel(tree.value[0], rest))
    case WorkValue(detail, rest) =>
      var tree := env.uiPatch(if detail.None? then [] else [detail.value], ops);
      if tree.Err? then Err(tree.error)
      else if |tree.value| > 1 then Err("Work detail is at most one node")
      else Ok(WorkValue(if tree.value == [] then None else Some(tree.value[0]), rest))
    case Bash(output, rest) =>
      var tree := env.uiPatch([output], ops);
      if tree.Err? then Err(tree.error)
      else if |tree.value| != 1 || !tree.value[0].terminal then Err("A shell command's output stays one terminal node")
      else Ok(Bash(tree.value[0], rest))
    case OtherValue(kind, _) => Err("A " + kind + " value has no node to patch")
  }

  /** One tree of a presentation after a patch; `None` and the empty tree are the same before and after. */
  function PatchTree(env: Env, tree: Option<seq<UiNode>>, ops: Option<seq<UiPatchOp>>): Result<Option<seq<UiNode>>> {
    if ops.None? then Ok(tree) else
    var next := env.uiPatch(if tree.None? then [] else tree.value, ops.value);
    if next.Err? then Err(next.error)
    else Ok(if next.value == [] then None else Some(next.value))
  }

  function PatchToolPresentation(env: Env, p: ToolPresentation,
      patch: ToolPresentationPatch): Result<ToolPresentation> {
    var summary := PatchTree(env, p.summary, patch.summary);
    if summary.Err? then Err(summary.error) else
    var body := PatchTree(env, p.body, patch.body);
    if body.Err? then Err(body.error) else
    Ok(ToolPresentation(summary.value, body.value, p.rest))
  }

  function PresentationAfter(env: Env, existing: Option<ToolPresentation>,
      item: ToolItem): Result<Option<ToolPresentation>> {
    if item.presentation.Some? then Ok(item.presentation)
    else if item.patch.None? then Ok(existing)
    else if existing.None? then Err("No presentation of the tool call to patch")
    else
      var p := PatchToolPresentation(env, existing.value, item.patch.value);
      if p.Err? then Err(p.error) else Ok(Some(p.value))
  }

  // ----- One item

  /** What an `update` or `end` of a call that never started builds on. */
  const NO_TOOL := Tool("", None, None, None, false, None, None, None)

  function ApplyToolItem(env: Env, existing: Option<Tool>, item: ToolItem): Result<Tool> {
    var held := if existing.Some? then existing.value else NO_TOOL;
    var presentation := PresentationAfter(env, if item.op.Start? then None else held.presentation, item);
    if presentation.Err? then Err(presentation.error) else
    match item.op
    case Start =>
      Ok(Tool(item.toolName, item.args, None, presentation.value, false, None, item.startedAt, None))
    case Update =>
      Ok(Tool(item.toolName, OrElse(item.args, held.args), OrElse(item.partial, held.partial), presentation.value,
              held.ended, held.isError, held.startedAt, held.endedAt))
    case End =>
      Ok(Tool(item.toolName, OrElse(item.args, held.args), OrElse(item.partial, held.partial), presentation.value,
              true, OrElse(item.isError, held.isError), held.startedAt, OrElse(item.endedAt, held.endedAt)))
  }

  /** Write `content[index]`, one past the end included. */
  function SetBlock(content: seq<Block>, index: nat, block: Block): seq<Block>
    requires index <= |content|
  {
    if index == |content| then content + [block] else content[index := block]
  }

  function WithBlock(a: Assistant, index: nat, block: Block, argsText: OMap<int, string>): Assistant
    requires index <= |a.message.content|
  {
    a.(message := a.message.(content := SetBlock(a.message.content, index, block)), argsText := argsText)
  }

  /** A streaming call, whose arguments are the parse of the text so far. */
  function StreamingToolCall(env: Env, id: string, name: string, text: string): Block {
    ToolCall(id, name, env.parse(text), None)
  }

  /** What a delta makes of the message; a wrong index or block kind leaves it as it is. */
  function ApplyAssistantDelta(env: Env, a: Assistant, index: int, event: Delta): Assistant {
    if index < 0 || index > |a.message.content| then a else
    var existing := if index < |a.message.content| then Some(a.message.content[index]) else None;
    match event
    case TextStart => WithBlock(a, index, Text("", None), a.argsText)
    case TextDelta(delta) =>
      if !(existing.Some? && existing.value.Text?) then a
      else WithBlock(a, index, existing.value.(text := existing.value.text + delta), a.argsText)
    case TextEnd(content) =>
      if !(existing.Some? && existing.value.Text?) then a
      else WithBlock(a, index, existing.value.(text := content), a.argsText)
    case ThinkingStart(redacted) => WithBlock(a, index, Thinking("", redacted, None), a.argsText)
    case ThinkingDelta(delta) =>
      if !(existing.Some? && existing.value.Thinking?) then a
      else WithBlock(a, index, existing.value.(thinking := existing.value.thinking + delta), a.argsText)
    case ThinkingEnd(content, redacted) =>
      if !(existing.Some? && existing.value.Thinking?) then a
      else WithBlock(a, index,
                     existing.value.(thinking := content, redacted := OrElse(redacted, existing.value.redacted)),
                     a.argsText)
    case CallStart(id, name) =>
      WithBlock(a, index, ToolCall(id, name, EMPTY_OBJECT, None), Put(a.argsText, index, ""))
    case CallDelta(delta, newId, newName) =>
      var previous := Get(a.argsText, index);
      if !(existing.Some? && existing.value.ToolCall?) || previous.None? then a else
      var text := previous.value + delta;
      var id := if newId.Some? then newId.value else existing.value.id;
      var name := if newName.Some? then newName.value else existing.value.name;
      WithBlock(a, index, StreamingToolCall(env, id, name, text), Put(a.argsText, index, text))
    case CallEnd(id, name, arguments, signature) =>
      if !(existing.Some? && existing.value.ToolCall?) then a
      else WithBlock(a, index, ToolCall(id, name, arguments, signature), Remove(a.argsText, index))
  }

  function FoldItem(env: Env, s: LiveState, item: LiveItem): Result<LiveState> {
    match item
    case SetValue(key, value) => Ok(s.(values := Put(s.values, key, value)))
    case ClearValue(key) => Ok(s.(values := Remove(s.values, key)))
    case PatchValue(key, ops) =>
      var held := Get(s.values, key);
      if held.None? then Err("No live value under " + key + " to patch") else
      var value := PatchLiveValue(env, held.value, ops);
      if value.Err? then Err(value.error) else Ok(s.(values := Put(s.values, key, value.value)))
    case AssistantStart(message) => Ok(s.(assistant := Some(Assistant(message, false, [], []))))
    case AssistantDelta(index, event) =>
      Ok(if s.assistant.None? then s
         else s.(assistant := Some(ApplyAssistantDelta(env, s.assistant.value, index, event))))
    case AssistantEnd =>
      Ok(if s.assistant.None? then s else s.(assistant := Some(s.assistant.value.(ended := true))))
    case CallPresentation(id, presentation) =>
      Ok(if s.assistant.None? then s
         else s.(assistant := Some(s.assistant.value.(
              presentations := Put(s.assistant.value.presentations, id, presentation)))))
    case ToolProgress(t) =>
      var tool := ApplyToolItem(env, Get(s.tools, t.toolCallId), t);
      if tool.Err? then Err(tool.error) else Ok(s.(tools := Put(s.tools, t.toolCallId, tool.value)))
    case Ephemeral(_) => Ok(s)
  }

  // ----- Folds

  /** Apply `items` in order. */
  function FoldItems(env: Env, s: LiveState, items: seq<LiveItem>): Result<LiveState>
    decreases items
  {
    if items == [] then Ok(s) else
    var next := FoldItem(env, s, items[0]);
    if next.Err? then next else FoldItems(env, next.value, items[1..])
  }

  lemma {:induction false} FoldItemsConcat(env: Env, s: LiveState, a: seq<LiveItem>, b: seq<LiveItem>)
    ensures FoldItems(env, s, a + b) ==
            if FoldItems(env, s, a).Err? then FoldItems(env, s, a) else FoldItems(env, FoldItems(env, s, a).value, b)
    decreases a
  {
    if a == [] {
      assert a + b == b;
    } else {
      assert (a + b)[1..] == a[1..] + b;
      var next := FoldItem(env, s, a[0]);
      if next.Ok? { FoldItemsConcat(env, next.value, a[1..], b); }
    }
  }

  /** `foldLiveItems`: one loop over the items, reassigning the parts of the state. */
  method FoldLiveItems(env: Env, state: LiveState, items: seq<LiveItem>) returns (r: Result<LiveState>)
    ensures r == FoldItems(env, state, items)
  {
    var values, assistant, tools := state.values, state.assistant, state.tools;
    for n := 0 to |items|
      invariant FoldItems(env, LiveState(state.basedOn, values, assistant, tools), items[n..]) ==
                FoldItems(env, state, items)
    {
      var item := items[n];
      ghost var before := LiveState(state.basedOn, values, assistant, tools);
      assert items[n..][0] == item && items[n..][1..] == items[n + 1..];
      match item {
        case SetValue(key, value) => values := Put(values, key, value);
        case ClearValue(key) =>
          if Has(values, key) { values := Remove(values, key); } else { RemoveAbsent(values, key); }
        case PatchValue(key, ops) =>
          var held := Get(values, key);
          if held.None? { return Err("No live value under " + key + " to patch"); }
          var value := PatchLiveValue(env, held.value, ops);
          if value.Err? { return Err(value.error); }
          values := Put(values, key, value.value);
        case AssistantStart(message) => assistant := Some(Assistant(message, false, [], []));
        case AssistantDelta(index, event) =>
          if assistant.Some? {
            assistant := Some(ApplyAssistantDelta(env, assistant.value, index, event));
          }
        case AssistantEnd =>
          if assistant.Some? { assistant := Some(assistant.value.(ended := true)); }
        case CallPresentation(id, presentation) =>
          if assistant.Some? {
            assistant := Some(assistant.value.(
              presentations := Put(assistant.value.presentations, id, presentation)));
          }
        case ToolProgress(t) =>
          var tool := ApplyToolItem(env, Get(tools, t.toolCallId), t);
          if tool.Err? { return Err(tool.error); }
          tools := Put(tools, t.toolCallId, tool.value);
        case Ephemeral(_) =>
      }
      assert FoldItem(env, before, item) == Ok(LiveState(state.basedOn, values, assistant, tools));
    }
    return Ok(LiveState(state.basedOn, values, assistant, tools));
  }

  function EmptyLiveFold(basedOn: int): LiveState {
    LiveState(basedOn, [], None, [])
  }

  predicate IsLiveStreaming(s: LiveState) {
    s.assistant.Some? || |s.tools| > 0
  }

  function WithoutStreaming(s: LiveState, basedOn: int): LiveState {
    LiveState(basedOn, s.values, None, [])
  }

  /** A frame onto a client's state: from empty after a reset, without streaming state after a move. */
  function FoldLiveFrame(env: Env, s: LiveState, frame: LiveFrame): Result<LiveState> {
    var base := if frame.reset then EmptyLiveFold(frame.basedOn)
                else if frame.basedOn == s.basedOn then s
                else WithoutStreaming(s, frame.basedOn);
    FoldItems(env, base, frame.items)
  }

  /** A commit removes the message or the tool it is about, and nothing else. */
  function FoldLiveCommit(s: LiveState, commit: LiveCommit): LiveState {
    match commit
    case NoCommit => s
    case CommitAssistant => s.(assistant := None)
    case CommitTool(id) => s.(tools := Remove(s.tools, id))
  }

  // ----- Re-emission

  /** The item that starts a held tool again. */
  function StartItem(id: string, tool: Tool): LiveItem {
    ToolProgress(ToolItem(Start, id, tool.toolName, tool.args, None, None, tool.presentation, None, tool.startedAt,
        None))
  }

  function UpdateItem(id: string, tool: Tool): LiveItem {
    ToolProgress(ToolItem(Update, id, tool.toolName, None, tool.partial, None, None, None, None, None))
  }

  function EndItem(id: string, tool: Tool): LiveItem {
    ToolProgress(ToolItem(End, id, tool.toolName, None, None, tool.isError, None, None, None, tool.endedAt))
  }

  function ToolItems(id: string, tool: Tool): seq<LiveItem> {
    [StartItem(id, tool)]
    + (if tool.partial.Some? then [UpdateItem(id, tool)] else [])
    + (if tool.ended then [EndItem(id, tool)] else [])
  }

  function AllToolItems(tools: OMap<string, Tool>): seq<LiveItem> {
    if tools == [] then [] else ToolItems(tools[0].0, tools[0].1) + AllToolItems(tools[1..])
  }

  predicate HoldsCall(content: seq<Block>, index: int) {
    0 <= index < |content| && content[index].ToolCall?
  }

  function CallItems(content: seq<Block>, index: int, text: string): seq<LiveItem> {
    if !HoldsCall(content, index) then [] else
    [AssistantDelta(index, CallStart(content[index].id, content[index].name))]
    + (if |text| > 0 then [AssistantDelta(index, CallDelta(text, None, None))] else [])
  }

  function AllCallItems(content: seq<Block>, argsText: OMap<int, string>): seq<LiveItem> {
    if argsText == [] then []
        else CallItems(content, argsText[0].0, argsText[0].1) + AllCallItems(content, argsText[1..])
  }

  function PresentationItems(presentations: OMap<string, ToolPresentation>): seq<LiveItem> {
    if presentations == [] then []
    else [CallPresentation(presentations[0].0, presentations[0].1)] + PresentationItems(presentations[1..])
  }

  function AssistantItems(a: Assistant): seq<LiveItem> {
    [AssistantStart(a.message)]
    + AllCallItems(a.message.content, a.argsText)
    + PresentationItems(a.presentations)
    + (if a.ended then [AssistantEnd] else [])
  }

  /** The message in progress and the running tools, as items. */
  function StreamingItems(s: LiveState): seq<LiveItem> {
    (if s.assistant.Some? then AssistantItems(s.assistant.value) else []) + AllToolItems(s.tools)
  }

  function ValueItems(values: OMap<string, LiveValue>): seq<LiveItem> {
    if values == [] then [] else [SetValue(values[0].0, values[0].1)] + ValueItems(values[1..])
  }

  /** All values, then message and tools, as items. */
  function ResetItems(s: LiveState): seq<LiveItem> {
    ValueItems(s.values) + StreamingItems(s)
  }

  method PushCallItems(items0: seq<LiveItem>, content: seq<Block>, argsText: OMap<int, string>)
    returns (items: seq<LiveItem>)
    ensures items == items0 + AllCallItems(content, argsText)
  {
    items := items0;
    for n := 0 to |argsText|
      invariant items + AllCallItems(content, argsText[n..]) == items0 + AllCallItems(content, argsText)
    {
      var (index, text) := argsText[n];
      assert argsText[n..][1..] == argsText[n + 1..];
      ghost var before := items;
      if HoldsCall(content, index) {
        items := items + [AssistantDelta(index, CallStart(content[index].id, content[index].name))];
        if |text| > 0 {
          items := items + [AssistantDelta(index, CallDelta(text, None, None))];
        }
      }
      assert items == before + CallItems(content, index, text);
      assert AllCallItems(content, argsText[n..]) ==
          CallItems(content, index, text) + AllCallItems(content, argsText[n + 1..]);
      Assoc(before, CallItems(content, index, text), AllCallItems(content, argsText[n + 1..]));
    }
  }

  method PushPresentationItems(items0: seq<LiveItem>, presentations: OMap<string, ToolPresentation>)
    returns (items: seq<LiveItem>)
    ensures items == items0 + PresentationItems(presentations)
  {
    items := items0;
    for n := 0 to |presentations|
      invariant items + PresentationItems(presentations[n..]) == items0 + PresentationItems(presentations)
    {
      assert presentations[n..][1..] == presentations[n + 1..];
      items := items + [CallPresentation(presentations[n].0, presentations[n].1)];
    }
  }

  method PushToolItems(items0: seq<LiveItem>, tools: OMap<string, Tool>) returns (items: seq<LiveItem>)
    ensures items == items0 + AllToolItems(tools)
  {
    items := items0;
    for n := 0 to |tools|
      invariant items + AllToolItems(tools[n..]) == items0 + AllToolItems(tools)
    {
      var (id, tool) := tools[n];
      assert tools[n..][1..] == tools[n + 1..];
      ghost var before := items;
      items := items + [StartItem(id, tool)];
      if tool.partial.Some? { items := items + [UpdateItem(id, tool)]; }
      if tool.ended { items := items + [EndItem(id, tool)]; }
      assert items == before + ToolItems(id, tool);
    }
  }

  /** `liveStreamingItems`: a list the loops push to. */
  method LiveStreamingItems(s: LiveState) returns (items: seq<LiveItem>)
    ensures items == StreamingItems(s)
  {
    items := [];
    if s.assistant.Some? {
      var a := s.assistant.value;
      items := items + [AssistantStart(a.message)];
      items := PushCallItems(items, a.message.content, a.argsText);
      items := PushPresentationItems(items, a.presentations);
      if a.ended { items := items + [AssistantEnd]; }
      assert items == AssistantItems(a);
    }
    items := PushToolItems(items, s.tools);
  }

  // ----- The lazily parsed arguments

  /** The call object of `streamingToolCall`: its `arguments` are parsed when first read, and kept. */
  class StreamingArguments {
    const env: Env
    const text: string
    var parsed: Option<Json>

    ghost predicate Valid()
      reads this
    {
      parsed.Some? ==> parsed.value == env.parse(text)
    }

    constructor (env: Env, text: string)
      ensures Valid() && this.env == env && this.text == text && parsed.None?
    {
      this.env, this.text, parsed := env, text, None;
    }

    /** However often the getter runs, it returns the parse of the text. */
    method Arguments() returns (json: Json)
      requires Valid()
      modifies this
      ensures Valid() && json == env.parse(text) && parsed == Some(json)
    {
      if parsed.None? { parsed := Some(env.parse(text)); }
      json := parsed.value;
    }
  }
}
