/** The Anthropic turn reducer as values: the stream events, what each does to the per-turn
    state, the final response, and the one-shot reduction it must agree with. JSON decoding
    of tool inputs is a parameter. */
module AnthropicModel {
  import opened Llm

  type Decoder = string -> Option<ToolInput>

  /** The content_block wire shape, shared by content_block_start and one-shot bodies. */
  datatype WireBlock = WireBlock(
    kind: BlockKind,
    text: string,
    id: string,
    name: string,
    input: ToolInput,
    thinking: string,
    signature: string,
    toolUseId: string,
    content: string)

  datatype WireUsage = WireUsage(input: int, output: int, cacheCreation: int, cacheRead: int)

  datatype Delta =
    | TextDelta(text: string)
    | InputDelta(json: string)
    | ThinkingDelta(thinking: string)
    | SignatureDelta(signature: string)
    | OtherDelta

  /** A decoded frame. Malformed stands for one whose body does not decode, Skipped for
      pings and event types the reducer does not know. */
  datatype Event =
    | MessageStart(model: string, role: string, startUsage: Option<WireUsage>)
    | BlockStart(index: int, block: WireBlock)
    | BlockDelta(index: int, delta: Delta)
    | BlockStop(index: int)
    | MessageDelta(stopReason: string, usage: Option<WireUsage>)
    | MessageStop
    | StreamError(errorType: string, message: string)
    | Malformed(reason: string)
    | Skipped

  datatype Message = Message(
    model: string,
    role: string,
    content: seq<WireBlock>,
    stopReason: string,
    usage: Option<WireUsage>)

  datatype Response = Response(
    model: string,
    role: string,
    content: seq<ContentBlock>,
    stopReason: string,
    usage: Usage,
    done: bool,
    incomplete: bool)

  datatype Block = Block(
    kind: BlockKind,
    text: string,
    thinking: string,
    signature: string,
    toolId: string,
    toolName: string,
    toolInput: ToolInput,
    toolUseId: string,
    content: string)

  datatype Turn = Turn(
    model: string,
    role: string,
    stopReason: string,
    blocks: map<int, Block>,
    maxIndex: int,
    fragments: map<int, string>,
    usage: Usage,
    errorType: string,
    errorMessage: string,
    toolInputErrors: nat,
    seenStop: bool)

  const NEW_TURN := Turn("", "", "", map[], 0, map[], NO_USAGE, "", "", 0, false)

  function EmptyBlock(kind: BlockKind): Block {
    Block(kind, "", "", "", "", "", NilInput, "", "")
  }

  /** A streamed placeholder input of {} counts as unset. */
  function Present(input: ToolInput): ToolInput {
    if input.Object? && input.fields == map[] then NilInput else input
  }

  function Opened(b: WireBlock): Block {
    match b.kind
    case Text => EmptyBlock(Text).(text := b.text)
    case ToolUse => EmptyBlock(ToolUse).(toolId := b.id, toolName := b.name, toolInput := Present(b.input))
    case Thinking => EmptyBlock(Thinking).(thinking := b.thinking, signature := b.signature)
    case ServerToolUse => EmptyBlock(ServerToolUse).(toolId := b.id, toolName := b.name, toolInput := Present(b.input))
    case WebSearchResult => EmptyBlock(WebSearchResult).(toolUseId := b.toolUseId, content := b.content)
    case _ => EmptyBlock(b.kind)
  }

  function Appended(b: Block, d: Delta): Block {
    match d
    case TextDelta(t) => b.(text := b.text + t)
    case ThinkingDelta(t) => b.(thinking := b.thinking + t)
    case SignatureDelta(t) => b.(signature := b.signature + t)
    case _ => b
  }

  predicate TakesInput(kind: BlockKind) {
    kind == ToolUse || kind == ServerToolUse
  }

  function OnStart(s: Turn, model: string, role: string, u: Option<WireUsage>): Turn {
    s.(model := model, role := role,
       usage := if u.None? then s.usage
                else s.usage.(promptTokens := u.value.input + u.value.cacheCreation + u.value.cacheRead,
                              cacheCreationTokens := u.value.cacheCreation, cacheReadTokens := u.value.cacheRead))
  }

  function OnBlockDelta(s: Turn, i: int, d: Delta): Turn {
    var b := if i in s.blocks then s.blocks[i] else EmptyBlock(Text);
    s.(blocks := s.blocks[i := Appended(b, d)],
       maxIndex := if i in s.blocks then s.maxIndex else Max(s.maxIndex, i),
       fragments := if d.InputDelta? then s.fragments[i := (if i in s.fragments then s.fragments[i] else "") + d.json]
                    else s.fragments)
  }

  function OnBlockStop(json: Decoder, s: Turn, i: int): Turn {
    if i !in s.blocks || i !in s.fragments || !TakesInput(s.blocks[i].kind) then s
    else
      var raw := s.fragments[i];
      var t := s.(fragments := s.fragments - {i});
      if raw == "" then t
      else
        match json(raw)
        case Some(parsed) => t.(blocks := s.blocks[i := s.blocks[i].(toolInput := parsed)])
        case None => t.(toolInputErrors := s.toolInputErrors + 1)
  }

  function Step(json: Decoder, s: Turn, ev: Event): Turn {
    match ev
    case MessageStart(model, role, u) => OnStart(s, model, role, u)
    case BlockStart(i, b) => s.(blocks := s.blocks[i := Opened(b)], maxIndex := Max(s.maxIndex, i))
    case BlockDelta(i, d) => OnBlockDelta(s, i, d)
    case BlockStop(i) => OnBlockStop(json, s, i)
    case MessageDelta(reason, u) =>
      s.(stopReason := if reason != "" then reason else s.stopReason,
         usage := if u.Some? then s.usage.(completionTokens := u.value.output) else s.usage)
    case MessageStop => s.(seenStop := true)
    case StreamError(kind, message) =>
      s.(errorType := kind, errorMessage := message, stopReason := if s.stopReason == "" then "error" else s.stopReason)
    case Malformed(reason) =>
      if s.errorMessage == "" then s.(errorMessage := reason, errorType := "reducer_parse_error") else s
    case Skipped => s
  }

  function Fold(json: Decoder, events: seq<Event>): Turn {
    if events == [] then NEW_TURN
    else Step(json, Fold(json, events[..|events| - 1]), events[|events| - 1])
  }

  function Rendered(b: Block): ContentBlock {
    match b.kind
    case Text => Blank(Text).(text := b.text)
    case ToolUse => Blank(ToolUse).(toolUseId := b.toolId, toolName := b.toolName, toolInput := b.toolInput)
    case Thinking => Blank(Thinking).(thinking := b.thinking, signature := b.signature)
    case ServerToolUse => Blank(ServerToolUse).(toolUseId := b.toolId, toolName := b.toolName, toolInput := b.toolInput)
    case WebSearchResult => Blank(WebSearchResult).(toolResultId := b.toolUseId, payload := b.content)
    case _ => Blank(b.kind)
  }

  /** The blocks at indices below n, in index order, gaps skipped. */
  function ContentBelow(blocks: map<int, Block>, n: nat): seq<ContentBlock> {
    if n == 0 then []
    else ContentBelow(blocks, n - 1) + (if n - 1 in blocks then [Rendered(blocks[n - 1])] else [])
  }

  function OrAssistant(role: string): string {
    if role == "" then "assistant" else role
  }

  /** finalize */
  function Finalize(s: Turn): Response {
    var cut := !s.seenStop && s.errorType == "";
    Response(s.model, OrAssistant(s.role), ContentBelow(s.blocks, if s.maxIndex < 0 then 0 else s.maxIndex + 1),
             if cut && s.stopReason == "" then "incomplete" else s.stopReason,
             s.usage.(totalTokens := s.usage.promptTokens + s.usage.completionTokens), s.seenStop, cut)
  }

  // ---------------------------------------------------------------- the one-shot reduction

  function OneShotBlock(b: WireBlock): ContentBlock {
    match b.kind
    case Text => Blank(Text).(text := b.text)
    case ToolUse => Blank(ToolUse).(toolUseId := b.id, toolName := b.name, toolInput := b.input)
    case Thinking => Blank(Thinking).(thinking := b.thinking, signature := b.signature)
    case ServerToolUse => Blank(ServerToolUse).(toolUseId := b.id, toolName := b.name, toolInput := b.input)
    case WebSearchResult => Blank(WebSearchResult).(toolResultId := b.toolUseId, payload := b.content)
    case _ => Blank(b.kind)
  }

  function OneShotContent(blocks: seq<WireBlock>): seq<ContentBlock> {
    if blocks == [] then [] else OneShotContent(blocks[..|blocks| - 1]) + [OneShotBlock(blocks[|blocks| - 1])]
  }

  function OneShotUsage(u: Option<WireUsage>): Usage {
    match u
    case None => NO_USAGE
    case Some(w) =>
      var input := w.input + w.cacheCreation + w.cacheRead;
      Usage(input, w.output, input + w.output, w.cacheCreation, w.cacheRead, 0)
  }

  function OneShot(m: Message): Response {
    Response(m.model, OrAssistant(m.role), OneShotContent(m.content), m.stopReason, OneShotUsage(m.usage), true, false)
  }
}
