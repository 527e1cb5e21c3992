/** The reducer as it runs: a turn state whose handlers update it event by event, the loop
    that renders it, and the one-shot loop. */
module AnthropicReducer {
  import opened Llm
  import opened AnthropicModel
  import opened AnthropicStream
  import opened AnthropicEnds

  lemma Overwritten<T>(m: map<int, T>, i: int, first: T, last: T)
    ensures m[i := first][i := last] == m[i := last]
  {
  }

  class TurnState {
    const json: Decoder
    var model: string
    var role: string
    var stopReason: string
    var blocks: map<int, Block>
    var maxIndex: int
    var fragments: map<int, string>
    var usage: Usage
    var errorType: string
    var errorMessage: string
    var toolInputErrors: nat
    var seenStop: bool

    ghost function State(): Turn
      reads this
    {
      Turn(model, role, stopReason, blocks, maxIndex, fragments, usage, errorType, errorMessage, toolInputErrors, seenStop)
    }

    constructor (decode: Decoder)
      ensures json == decode && State() == NEW_TURN
    {
      json := decode;
      model, role, stopReason := "", "", "";
      blocks, maxIndex, fragments := map[], 0, map[];
      usage := NO_USAGE;
      errorType, errorMessage := "", "";
      toolInputErrors, seenStop := 0, false;
    }

    method OnMessageStart(m: string, r: string, u: Option<WireUsage>)
      modifies this
      ensures State() == OnStart(old(State()), m, r, u)
    {
      model, role := m, r;
      if u.Some? {
        var w := u.value;
        usage := usage.(promptTokens := w.input + w.cacheCreation + w.cacheRead,
                        cacheCreationTokens := w.cacheCreation,
                        cacheReadTokens := w.cacheRead);
      }
    }

    method OnContentBlockStart(index: int, wire: WireBlock)
      modifies this
      ensures State() == Step(json, old(State()), BlockStart(index, wire))
    {
      var b := EmptyBlock(wire.kind);
      match wire.kind {
        case Text => b := b.(text := wire.text);
        case ToolUse => b := b.(toolId := wire.id, toolName := wire.name, toolInput := Present(wire.input));
        case Thinking => b := b.(thinking := wire.thinking, signature := wire.signature);
        case ServerToolUse => b := b.(toolId := wire.id, toolName := wire.name, toolInput := Present(wire.input));
        case WebSearchResult => b := b.(toolUseId := wire.toolUseId, content := wire.content);
        case _ =>
      }
      blocks := blocks[index := b];
      if index > maxIndex { maxIndex := index; }
    }

    method OnContentBlockDelta(index: int, delta: Delta)
      modifies this
      ensures State() == Step(json, old(State()), BlockDelta(index, delta))
    {
      hide EmptyBlock;
      if index !in blocks {
        blocks := blocks[index := EmptyBlock(Text)];
        if index > maxIndex { maxIndex := index; }
      }
      var b := blocks[index];
      match delta {
        case TextDelta(t) => b := b.(text := b.text + t);
        case InputDelta(t) =>
          if index !in fragments { fragments := fragments[index := ""]; }
          fragments := fragments[index := fragments[index] + t];
        case ThinkingDelta(t) => b := b.(thinking := b.thinking + t);
        case SignatureDelta(t) => b := b.(signature := b.signature + t);
        case OtherDelta =>
      }
      blocks := blocks[index := b];
      Overwritten(old(blocks), index, EmptyBlock(Text), b);
      if delta.InputDelta? { Overwritten(old(fragments), index, "", fragments[index]); }
    }

    method OnContentBlockStop(index: int)
      modifies this
      ensures State() == Step(json, old(State()), BlockStop(index))
    {
      if index !in blocks { return; }
      var b := blocks[index];
      if index in fragments && (b.kind == ToolUse || b.kind == ServerToolUse) {
        var raw := fragments[index];
        if raw != "" {
          match json(raw) {
            case Some(parsed) => blocks := blocks[index := b.(toolInput := parsed)];
            case None => toolInputErrors := toolInputErrors + 1;
          }
        }
        fragments := fragments - {index};
      }
    }

    method OnMessageDelta(reason: string, u: Option<WireUsage>)
      modifies this
      ensures State() == Step(json, old(State()), MessageDelta(reason, u))
    {
      if reason != "" { stopReason := reason; }
      if u.Some? { usage := usage.(completionTokens := u.value.output); }
    }

    method OnError(kind: string, message: string)
      modifies this
      ensures State() == Step(json, old(State()), StreamError(kind, message))
    {
      errorType, errorMessage := kind, message;
      if stopReason == "" { stopReason := "error"; }
    }

    /** One frame of the stream: dispatch on its type, or record the first malformed one. */
    method Dispatch(ev: Event)
      modifies this
      ensures State() == Step(json, old(State()), ev)
    {
      match ev {
        case MessageStart(m, r, u) => OnMessageStart(m, r, u);
        case BlockStart(i, b) => OnContentBlockStart(i, b);
        case BlockDelta(i, d) => OnContentBlockDelta(i, d);
        case BlockStop(i) => OnContentBlockStop(i);
        case MessageDelta(reason, u) => OnMessageDelta(reason, u);
        case MessageStop => seenStop := true;
        case StreamError(kind, message) => OnError(kind, message);
        case Malformed(reason) =>
          if errorMessage == "" {
            errorMessage, errorType := reason, "reducer_parse_error";
          }
        case Skipped =>
      }
    }

    /** The rendered content, in index order, gaps skipped. */
    method Content() returns (content: seq<ContentBlock>)
      ensures content == ContentBelow(blocks, if maxIndex < 0 then 0 else maxIndex + 1)
    {
      content := [];
      var i := 0;
      while i <= maxIndex
        invariant 0 <= i && (maxIndex >= 0 ==> i <= maxIndex + 1) && (maxIndex < 0 ==> i == 0)
        invariant content == ContentBelow(blocks, i)
      {
        if i in blocks {
          var b := blocks[i];
          var cb := Blank(b.kind);
          match b.kind {
            case Text => cb := cb.(text := b.text);
            case ToolUse => cb := cb.(toolUseId := b.toolId, toolName := b.toolName, toolInput := b.toolInput);
            case Thinking => cb := cb.(thinking := b.thinking, signature := b.signature);
            case ServerToolUse => cb := cb.(toolUseId := b.toolId, toolName := b.toolName, toolInput := b.toolInput);
            case WebSearchResult => cb := cb.(toolResultId := b.toolUseId, payload := b.content);
            case _ =>
          }
          assert cb == Rendered(b);
          content := content + [cb];
        }
        i := i + 1;
      }
    }

    method FinalizeTurn() returns (r: Response)
      modifies this`stopReason
      ensures r == Finalize(old(State()))
    {
      var content := Content();
      var total := usage.(totalTokens := usage.promptTokens + usage.completionTokens);
      var incomplete := false;
      if !seenStop && errorType == "" {
        incomplete := true;
        if stopReason == "" { stopReason := "incomplete"; }
      }
      r := Response(model, OrAssistant(role), content, stopReason, total, seenStop, incomplete);
    }
  }

  /** reduceStream: the frames the reader yields before its end or its first read error. */
  method ReduceStream(json: Decoder, events: seq<Event>) returns (r: Response)
    ensures r == Finalize(Fold(json, events))
    ensures forall m | Streams(json, events, m) :: SameResponse(r, OneShot(m)) && !r.incomplete
    ensures r.done <==> Stopped(events)
    ensures r.incomplete <==> !Stopped(events) && !Failed(events)
    ensures r.stopReason == if ReasonOf(events) != "" then ReasonOf(events) else if r.incomplete then "incomplete" else ""
  {
    hide Finalize, Step, Streams, SameResponse, Stopped, Failed, ReasonOf;
    var state := new TurnState(json);
    var i := 0;
    while i < |events|
      invariant 0 <= i <= |events| && fresh(state) && state.json == json
      invariant state.State() == Fold(json, events[..i])
    {
      state.Dispatch(events[i]);
      assert events[..i + 1][..i] == events[..i];
      i := i + 1;
    }
    assert events[..i] == events;
    r := state.FinalizeTurn();
    EndingsAreMarked(json, events);
    forall m | Streams(json, events, m) ensures SameResponse(r, OneShot(m)) && !r.incomplete {
      StreamedEqualsOneShot(json, events, m);
      WholeStreamIsComplete(json, events, m);
    }
  }

  /** reduceOneShot */
  method ReduceOneShot(m: Message) returns (r: Response)
    ensures r == OneShot(m)
  {
    var content: seq<ContentBlock> := [];
    var i := 0;
    while i < |m.content|
      invariant 0 <= i <= |m.content|
      invariant content == OneShotContent(m.content[..i])
    {
      var block := m.content[i];
      var cb := Blank(block.kind);
      match block.kind {
        case Text => cb := cb.(text := block.text);
        case ToolUse => cb := cb.(toolUseId := block.id, toolName := block.name, toolInput := block.input);
        case Thinking => cb := cb.(thinking := block.thinking, signature := block.signature);
        case ServerToolUse => cb := cb.(toolUseId := block.id, toolName := block.name, toolInput := block.input);
        case WebSearchResult => cb := cb.(toolResultId := block.toolUseId, payload := block.content);
        case _ =>
      }
      assert cb == OneShotBlock(block);
      content := content + [cb];
      assert m.content[..i + 1][..i] == m.content[..i];
      i := i + 1;
    }
    assert m.content[..i] == m.content;
    var usage := NO_USAGE;
    if m.usage.Some? {
      var w := m.usage.value;
      var totalInput := w.input + w.cacheCreation + w.cacheRead;
      usage := Usage(totalInput, w.output, totalInput + w.output, w.cacheCreation, w.cacheRead, 0);
    }
    var role := m.role;
    if role == "" { role := "assistant"; }
    r := Response(m.model, role, content, m.stopReason, usage, true, false);
  }
}
