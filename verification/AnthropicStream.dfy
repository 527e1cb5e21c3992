/** The streamed reduction equals the one-shot reduction, for every splitting of the
    content into deltas and every interleaving of the per-block event sequences. */
module AnthropicStream {
  import opened Llm
  import opened AnthropicModel

  // ---------------------------------------------------------------- projections

  predicate ForBlock(e: Event, i: int) {
    match e
    case BlockStart(j, _) => j == i
    case BlockDelta(j, _) => j == i
    case BlockStop(j) => j == i
    case _ => false
  }

  predicate ForTurn(e: Event) {
    e.MessageStart? || e.MessageDelta? || e.MessageStop?
  }

  /** The events of one content block, in stream order. */
  ghost function BlockEvents(events: seq<Event>, i: int): seq<Event> {
    if events == [] then []
    else
      var e := events[|events| - 1];
      BlockEvents(events[..|events| - 1], i) + (if ForBlock(e, i) then [e] else [])
  }

  /** The message-level events, in stream order. */
  ghost function TurnEvents(events: seq<Event>): seq<Event> {
    if events == [] then []
    else
      var e := events[|events| - 1];
      TurnEvents(events[..|events| - 1]) + (if ForTurn(e) then [e] else [])
  }

  /** What one index holds: its block and its pending input fragments. */
  datatype Slot = Slot(block: Option<Block>, fragment: Option<string>)

  ghost function SlotOf(s: Turn, i: int): Slot {
    Slot(if i in s.blocks then Some(s.blocks[i]) else None, if i in s.fragments then Some(s.fragments[i]) else None)
  }

  ghost function SlotStep(json: Decoder, s: Slot, e: Event): Slot {
    match e
    case BlockStart(_, b) => s.(block := Some(Opened(b)))
    case BlockDelta(_, d) =>
      Slot(Some(Appended(if s.block.Some? then s.block.value else EmptyBlock(Text), d)),
           if d.InputDelta? then Some((if s.fragment.Some? then s.fragment.value else "") + d.json) else s.fragment)
    case BlockStop(_) =>
      if s.block.None? || s.fragment.None? || !TakesInput(s.block.value.kind) then s
      else if s.fragment.value == "" then Slot(s.block, None)
      else
        (match json(s.fragment.value)
         case Some(parsed) => Slot(Some(s.block.value.(toolInput := parsed)), None)
         case None => Slot(s.block, None))
    case _ => s
  }

  ghost function SlotFold(json: Decoder, es: seq<Event>): Slot {
    if es == [] then Slot(None, None) else SlotStep(json, SlotFold(json, es[..|es| - 1]), es[|es| - 1])
  }

  datatype Top = Top(model: string, role: string, stopReason: string, usage: Usage, seenStop: bool)

  ghost function TopOf(s: Turn): Top {
    Top(s.model, s.role, s.stopReason, s.usage, s.seenStop)
  }

  ghost function TopStep(t: Top, e: Event): Top {
    match e
    case MessageStart(model, role, u) =>
      t.(model := model, role := role,
         usage := if u.None? then t.usage
                  else t.usage.(promptTokens := u.value.input + u.value.cacheCreation + u.value.cacheRead,
                                cacheCreationTokens := u.value.cacheCreation, cacheReadTokens := u.value.cacheRead))
    case MessageDelta(reason, u) =>
      t.(stopReason := if reason != "" then reason else t.stopReason,
         usage := if u.Some? then t.usage.(completionTokens := u.value.output) else t.usage)
    case MessageStop => t.(seenStop := true)
    case _ => t
  }

  ghost function TopFold(es: seq<Event>): Top {
    if es == [] then TopOf(NEW_TURN) else TopStep(TopFold(es[..|es| - 1]), es[|es| - 1])
  }

  lemma SlotStepRefines(json: Decoder, s: Turn, e: Event, i: int)
    ensures SlotOf(Step(json, s, e), i) == if ForBlock(e, i) then SlotStep(json, SlotOf(s, i), e) else SlotOf(s, i)
  {
    hide Opened, Appended;
  }

  lemma {:induction false} SlotFoldSnoc(json: Decoder, rest: seq<Event>, e: Event)
    ensures SlotFold(json, rest + [e]) == SlotStep(json, SlotFold(json, rest), e)
  {
    assert (rest + [e])[..|rest|] == rest;
  }

  /** No content block sees the events of another, whatever the interleaving. */
  lemma {:induction false} SlotsAreIndependent(json: Decoder, events: seq<Event>, i: int)
    ensures SlotOf(Fold(json, events), i) == SlotFold(json, BlockEvents(events, i))
  {
    hide Step, SlotStep, ForBlock, SlotOf;
    if events == [] {
      assert SlotOf(NEW_TURN, i) == Slot(None, None) by { NothingOpen(i); }
    } else {
      var rest, e := events[..|events| - 1], events[|events| - 1];
      SlotsAreIndependent(json, rest, i);
      SlotStepRefines(json, Fold(json, rest), e, i);
      if ForBlock(e, i) {
        SlotFoldSnoc(json, BlockEvents(rest, i), e);
      } else {
        assert BlockEvents(events, i) == BlockEvents(rest, i);
      }
    }
  }

  lemma NothingOpen(i: int)
    ensures SlotOf(NEW_TURN, i) == Slot(None, None)
  {
  }

  ghost predicate NoErrors(events: seq<Event>) {
    forall e | e in events :: !e.StreamError?
  }

  lemma TopStepRefines(json: Decoder, s: Turn, e: Event)
    requires !e.StreamError?
    ensures TopOf(Step(json, s, e)) == if ForTurn(e) then TopStep(TopOf(s), e) else TopOf(s)
  {
    hide Opened, Appended;
  }

  lemma {:induction false} TopFoldSnoc(rest: seq<Event>, e: Event)
    ensures TopFold(rest + [e]) == TopStep(TopFold(rest), e)
  {
    assert (rest + [e])[..|rest|] == rest;
  }

  /** The message-level part of the state depends on message-level events only. */
  lemma {:induction false} TopIsIndependent(json: Decoder, events: seq<Event>)
    requires NoErrors(events)
    ensures TopOf(Fold(json, events)) == TopFold(TurnEvents(events))
  {
    hide Step, TopStep, ForTurn, TopOf;
    if events != [] {
      var rest, e := events[..|events| - 1], events[|events| - 1];
      assert e in events;
      TopIsIndependent(json, rest);
      TopStepRefines(json, Fold(json, rest), e);
      if ForTurn(e) {
        TopFoldSnoc(TurnEvents(rest), e);
      } else {
        assert TurnEvents(events) == TurnEvents(rest);
      }
    }
  }

  /** Indices beyond every event's stay empty, and maxIndex covers the rest. */
  lemma {:induction false} IndicesCovered(json: Decoder, events: seq<Event>, n: int)
    requires 0 <= n && forall e, i | e in events && ForBlock(e, i) :: 0 <= i < n
    ensures var s := Fold(json, events);
            0 <= s.maxIndex && (n > 0 ==> s.maxIndex < n) && (n == 0 ==> s.maxIndex == 0)
            && forall i | i in s.blocks :: 0 <= i <= s.maxIndex
  {
    if events != [] {
      var rest, e := events[..|events| - 1], events[|events| - 1];
      IndicesCovered(json, rest, n);
      assert e in events;
      match e
      case BlockStart(i, _) => assert ForBlock(e, i);
      case BlockDelta(i, _) => assert ForBlock(e, i);
      case BlockStop(i) => assert ForBlock(e, i);
      case _ =>
    }
  }

  // ---------------------------------------------------------------- spelling a block

  function TextsOf(es: seq<Event>): string {
    if es == [] then ""
    else
      var e := es[|es| - 1];
      TextsOf(es[..|es| - 1]) + (if e.BlockDelta? && e.delta.TextDelta? then e.delta.text else "")
  }

  function ThinkingOf(es: seq<Event>): string {
    if es == [] then ""
    else
      var e := es[|es| - 1];
      ThinkingOf(es[..|es| - 1]) + (if e.BlockDelta? && e.delta.ThinkingDelta? then e.delta.thinking else "")
  }

  function SignatureOf(es: seq<Event>): string {
    if es == [] then ""
    else
      var e := es[|es| - 1];
      SignatureOf(es[..|es| - 1]) + (if e.BlockDelta? && e.delta.SignatureDelta? then e.delta.signature else "")
  }

  function InputOf(es: seq<Event>): string {
    if es == [] then ""
    else
      var e := es[|es| - 1];
      InputOf(es[..|es| - 1]) + (if e.BlockDelta? && e.delta.InputDelta? then e.delta.json else "")
  }

  /** es opens block b at index i, delivers its content in any number of deltas of any
      kinds, and stops it: the initial value and the deltas concatenate to b's values. */
  ghost predicate Spells(json: Decoder, es: seq<Event>, i: int, b: WireBlock) {
    && |es| >= 2 && es[0].BlockStart? && es[0].index == i && es[|es| - 1] == BlockStop(i)
    && (forall k | 1 <= k < |es| - 1 :: es[k].BlockDelta? && es[k].index == i)
    && Delivers(json, es[0].block, es[1..|es| - 1], b)
  }

  /** The opening block and the deltas' payloads concatenate to b's values. */
  ghost predicate Delivers(json: Decoder, first: WireBlock, body: seq<Event>, b: WireBlock) {
    && first.kind == b.kind
    && match b.kind
       case Text => first.text + TextsOf(body) == b.text
       case Thinking => first.thinking + ThinkingOf(body) == b.thinking && first.signature + SignatureOf(body) == b.signature
       case ToolUse => SpellsInput(json, first, body, b)
       case ServerToolUse => SpellsInput(json, first, body, b)
       case WebSearchResult => first.toolUseId == b.toolUseId && first.content == b.content
       case _ => true
  }

  ghost predicate SpellsInput(json: Decoder, first: WireBlock, body: seq<Event>, b: WireBlock) {
    && first.id == b.id && first.name == b.name
    && (if InputOf(body) == "" then Present(first.input) == Present(b.input)
        else json(InputOf(body)).Some? && Present(json(InputOf(body)).value) == Present(b.input))
  }

  /** One more delta extends exactly one of the four texts, by its payload. */
  lemma TextsSnoc(body: seq<Event>, e: Event)
    requires e.BlockDelta?
    ensures var all, d := body + [e], e.delta;
            && TextsOf(all) == TextsOf(body) + (if d.TextDelta? then d.text else "")
            && ThinkingOf(all) == ThinkingOf(body) + (if d.ThinkingDelta? then d.thinking else "")
            && SignatureOf(all) == SignatureOf(body) + (if d.SignatureDelta? then d.signature else "")
            && InputOf(all) == InputOf(body) + (if d.InputDelta? then d.json else "")
  {
    assert (body + [e])[..|body|] == body;
  }

  ghost predicate SpelledSoFar(first: Block, body: seq<Event>, r: Slot) {
    && r.block.Some? && r.block.value.kind == first.kind
    && r.block.value == first.(text := r.block.value.text, thinking := r.block.value.thinking,
                               signature := r.block.value.signature)
    && r.block.value.text == first.text + TextsOf(body)
    && r.block.value.thinking == first.thinking + ThinkingOf(body)
    && r.block.value.signature == first.signature + SignatureOf(body)
    && (r.fragment.None? ==> InputOf(body) == "")
    && (r.fragment.Some? ==> r.fragment.value == InputOf(body))
  }

  lemma SpelledOneMore(json: Decoder, first: Block, body: seq<Event>, r: Slot, e: Event)
    requires SpelledSoFar(first, body, r) && e.BlockDelta?
    ensures SpelledSoFar(first, body + [e], SlotStep(json, r, e))
  {
    hide TextsOf, ThinkingOf, SignatureOf, InputOf;
    TextsSnoc(body, e);
    match e.delta
    case TextDelta(t) => assert (first.text + TextsOf(body)) + t == first.text + (TextsOf(body) + t);
    case ThinkingDelta(t) => assert (first.thinking + ThinkingOf(body)) + t == first.thinking + (ThinkingOf(body) + t);
    case SignatureDelta(t) => assert (first.signature + SignatureOf(body)) + t == first.signature + (SignatureOf(body) + t);
    case InputDelta(t) => assert "" + t == t;
    case OtherDelta =>
  }

  /** The slot after the start and some deltas. */
  lemma {:induction false} SlotAfterDeltas(json: Decoder, es: seq<Event>, i: int)
    requires |es| >= 1 && es[0].BlockStart?
    requires forall k | 1 <= k < |es| :: es[k].BlockDelta? && es[k].index == i
    ensures SpelledSoFar(Opened(es[0].block), es[1..], SlotFold(json, es))
  {
    hide Opened, SpelledSoFar, SlotStep, SlotFold;
    var n := |es| - 1;
    SlotFoldSnoc(json, es[..n], es[n]);
    assert es == es[..n] + [es[n]];
    if n == 0 {
      assert es[..0] == [] && es[1..] == [];
      JustOpened(json, es[0]);
    } else {
      SlotAfterDeltas(json, es[..n], i);
      SpelledOneMore(json, Opened(es[0].block), es[..n][1..], SlotFold(json, es[..n]), es[n]);
      assert es[1..] == es[..n][1..] + [es[n]];
    }
  }

  lemma JustOpened(json: Decoder, e: Event)
    requires e.BlockStart?
    ensures SpelledSoFar(Opened(e.block), [], SlotStep(json, SlotFold(json, []), e))
  {
    hide Opened;
  }

  /** Equality up to nil against empty tool inputs. */
  ghost predicate SameBlock(a: ContentBlock, b: ContentBlock) {
    a.(toolInput := Present(a.toolInput)) == b.(toolInput := Present(b.toolInput))
  }

  lemma StoppedBlock(json: Decoder, first: WireBlock, body: seq<Event>, r: Slot, i: int, b: WireBlock)
    requires Delivers(json, first, body, b) && SpelledSoFar(Opened(first), body, r)
    ensures var stopped := SlotStep(json, r, BlockStop(i));
            stopped.block.Some? && SameBlock(Rendered(stopped.block.value), OneShotBlock(b))
  {
    hide TextsOf, ThinkingOf, SignatureOf, InputOf;
  }

  lemma SpelledBlock(json: Decoder, es: seq<Event>, i: int, b: WireBlock)
    requires Spells(json, es, i, b)
    ensures SlotFold(json, es).block.Some?
    ensures SameBlock(Rendered(SlotFold(json, es).block.value), OneShotBlock(b))
  {
    hide Delivers, SpelledSoFar, SlotStep, SlotFold, SameBlock, Opened;
    var n := |es| - 1;
    var head := es[..n];
    SlotAfterDeltas(json, head, i);
    assert head[1..] == es[1..n];
    StoppedBlock(json, es[0].block, es[1..n], SlotFold(json, head), i, b);
    SlotFoldSnoc(json, head, es[n]);
    assert es == head + [es[n]];
  }

  // ---------------------------------------------------------------- the message level

  function LastReason(es: seq<Event>): string {
    if es == [] then ""
    else
      var e := es[|es| - 1];
      if e.MessageDelta? && e.stopReason != "" then e.stopReason else LastReason(es[..|es| - 1])
  }

  function LastOutput(es: seq<Event>): int {
    if es == [] then 0
    else
      var e := es[|es| - 1];
      if e.MessageDelta? && e.usage.Some? then e.usage.value.output else LastOutput(es[..|es| - 1])
  }

  /** One message_start, any number of message_delta, one message_stop, carrying the
      message's model, role, stop reason and usage between them. */
  ghost predicate Frames(es: seq<Event>, m: Message) {
    && |es| >= 2 && es[0].MessageStart? && es[|es| - 1] == MessageStop
    && (forall k | 1 <= k < |es| - 1 :: es[k].MessageDelta?)
    && es[0].model == m.model && es[0].role == m.role
    && LastReason(es[1..|es| - 1]) == m.stopReason
    && match m.usage
       case None => es[0].startUsage == None && LastOutput(es[1..|es| - 1]) == 0
       case Some(u) =>
         && es[0].startUsage.Some?
         && es[0].startUsage.value.input == u.input && es[0].startUsage.value.cacheCreation == u.cacheCreation
         && es[0].startUsage.value.cacheRead == u.cacheRead
         && LastOutput(es[1..|es| - 1]) == u.output
  }

  lemma {:induction false} TopAfterDeltas(es: seq<Event>)
    requires |es| >= 1 && es[0].MessageStart? && forall k | 1 <= k < |es| :: es[k].MessageDelta?
    ensures var s, t := OnStart(NEW_TURN, es[0].model, es[0].role, es[0].startUsage), TopFold(es);
            && t.model == s.model && t.role == s.role && !t.seenStop
            && t.stopReason == LastReason(es[1..])
            && t.usage == s.usage.(completionTokens := LastOutput(es[1..]))
  {
    if |es| == 1 {
      assert es[..0] == [] && es[1..] == [] && TopFold(es[..0]) == TopOf(NEW_TURN);
    } else {
      var n := |es| - 1;
      TopAfterDeltas(es[..n]);
      assert es[1..][..n - 1] == es[..n][1..];
      assert es[1..][n - 1] == es[n];
    }
  }

  lemma FramedTop(es: seq<Event>, m: Message)
    requires Frames(es, m)
    ensures var t, o := TopFold(es), OneShot(m);
            && t.model == o.model && OrAssistant(t.role) == o.role && t.stopReason == o.stopReason && t.seenStop
            && t.usage.(totalTokens := t.usage.promptTokens + t.usage.completionTokens) == o.usage
  {
    var n := |es| - 1;
    TopAfterDeltas(es[..n]);
    assert es[..n][1..] == es[1..n];
  }

  // ---------------------------------------------------------------- the theorem

  /** events is a stream of m: an arbitrary interleaving of its message frames, one spelling
      per content block, and any pings, unknown or undecodable frames. */
  ghost predicate Streams(json: Decoder, events: seq<Event>, m: Message) {
    && NoErrors(events)
    && (forall e, i | e in events && ForBlock(e, i) :: 0 <= i < |m.content|)
    && Frames(TurnEvents(events), m)
    && (forall i | 0 <= i < |m.content| :: Spells(json, BlockEvents(events, i), i, m.content[i]))
  }

  ghost predicate SameResponse(a: Response, b: Response) {
    && a.model == b.model && a.role == b.role && a.stopReason == b.stopReason && a.usage == b.usage && a.done == b.done
    && |a.content| == |b.content|
    && forall i | 0 <= i < |a.content| :: SameBlock(a.content[i], b.content[i])
  }

  lemma {:induction false} ContentMatches(blocks: map<int, Block>, content: seq<WireBlock>, n: nat)
    requires n <= |content|
    requires forall i | 0 <= i < n :: i in blocks && SameBlock(Rendered(blocks[i]), OneShotBlock(content[i]))
    ensures var a, b := ContentBelow(blocks, n), OneShotContent(content[..n]);
            |a| == |b| == n && forall i | 0 <= i < n :: SameBlock(a[i], b[i])
  {
    hide Rendered, OneShotBlock, SameBlock;
    if n > 0 {
      ContentMatches(blocks, content, n - 1);
      assert content[..n][..n - 1] == content[..n - 1];
    }
  }

  lemma StreamedEqualsOneShot(json: Decoder, events: seq<Event>, m: Message)
    requires Streams(json, events, m)
    ensures SameResponse(Finalize(Fold(json, events)), OneShot(m))
  {
    hide Fold, Spells, Frames, Rendered, OneShotBlock, SlotFold, BlockEvents, TurnEvents, SameBlock;
    var s := Fold(json, events);
    var n := |m.content|;
    TopIsIndependent(json, events);
    FramedTop(TurnEvents(events), m);
    IndicesCovered(json, events, n);
    forall i | 0 <= i < n ensures i in s.blocks && SameBlock(Rendered(s.blocks[i]), OneShotBlock(m.content[i])) {
      SlotsAreIndependent(json, events, i);
      SpelledBlock(json, BlockEvents(events, i), i, m.content[i]);
    }
    ContentMatches(s.blocks, m.content, n);
    assert m.content[..n] == m.content;
    if n == 0 {
      assert 0 !in s.blocks by { SlotsAreIndependent(json, events, 0); NoEvents(json, events, 0); }
      assert ContentBelow(s.blocks, 1) == ContentBelow(s.blocks, 0);
    } else {
      assert n - 1 in s.blocks && s.maxIndex == n - 1;
    }
  }

  lemma {:induction false} NoEvents(json: Decoder, events: seq<Event>, i: int)
    requires forall e | e in events :: !ForBlock(e, i)
    ensures BlockEvents(events, i) == [] && SlotFold(json, BlockEvents(events, i)) == Slot(None, None)
  {
    if events != [] { NoEvents(json, events[..|events| - 1], i); }
  }

  // ---------------------------------------------------------------- cut streams

  lemma {:induction false} BlockEventsPrefix(events: seq<Event>, k: nat, i: int)
    requires k <= |events|
    ensures BlockEvents(events[..k], i) <= BlockEvents(events, i)
  {
    if k == |events| {
      assert events[..k] == events;
    } else {
      var rest := events[..|events| - 1];
      assert rest[..k] == events[..k];
      BlockEventsPrefix(rest, k, i);
    }
  }

  lemma {:induction false} TextsPrefix(es: seq<Event>, k: nat)
    requires k <= |es|
    ensures TextsOf(es[..k]) <= TextsOf(es) && ThinkingOf(es[..k]) <= ThinkingOf(es)
  {
    if k == |es| {
      assert es[..k] == es;
    } else {
      var rest := es[..|es| - 1];
      assert rest[..k] == es[..k];
      TextsPrefix(rest, k);
    }
  }

  /** Wherever the stream is cut, a block that was opened has its own kind and a prefix of
      its text and thinking: a partial capture never invents or reorders content. */
  lemma CutDeliversPrefixes(json: Decoder, events: seq<Event>, m: Message, k: nat, i: int)
    requires Streams(json, events, m) && k <= |events|
    requires i in Fold(json, events[..k]).blocks
    ensures 0 <= i < |m.content|
    ensures var b := Fold(json, events[..k]).blocks[i];
            && b.kind == m.content[i].kind
            && (b.kind == Text ==> b.text <= m.content[i].text)
            && (b.kind == Thinking ==> b.thinking <= m.content[i].thinking)
  {
    hide Fold, Frames, TurnEvents, BlockEvents;
    var cut := events[..k];
    SlotsAreIndependent(json, cut, i);
    var es := BlockEvents(cut, i);
    if !(0 <= i < |m.content|) {
      NoEvents(json, cut, i);
    }
    var whole := BlockEvents(events, i);
    BlockEventsPrefix(events, k, i);
    assert Spells(json, whole, i, m.content[i]);
    CutSlot(json, whole, |es|, i, m.content[i]);
    assert es == whole[..|es|];
  }

  ghost predicate PrefixOf(r: Slot, b: WireBlock) {
    r.block.Some? ==>
      && r.block.value.kind == b.kind
      && (b.kind == Text ==> r.block.value.text <= b.text)
      && (b.kind == Thinking ==> r.block.value.thinking <= b.thinking)
  }

  lemma PartlyDelivered(json: Decoder, first: WireBlock, body: seq<Event>, k: nat, r: Slot, b: WireBlock)
    requires Delivers(json, first, body, b) && k <= |body| && SpelledSoFar(Opened(first), body[..k], r)
    ensures PrefixOf(r, b)
  {
    hide TextsOf, ThinkingOf, SignatureOf, InputOf;
    TextsPrefix(body, k);
  }

  lemma StopKeepsPrefix(json: Decoder, r: Slot, i: int, b: WireBlock)
    requires PrefixOf(r, b)
    ensures PrefixOf(SlotStep(json, r, BlockStop(i)), b)
  {
  }

  lemma CutSlot(json: Decoder, whole: seq<Event>, k: nat, i: int, b: WireBlock)
    requires Spells(json, whole, i, b) && k <= |whole|
    ensures PrefixOf(SlotFold(json, whole[..k]), b)
  {
    hide Delivers, SpelledSoFar, SlotStep, Opened;
    var n := |whole| - 1;
    if k == 0 {
      assert whole[..k] == [];
    } else {
      hide SlotFold, PrefixOf;
      var j := if k > n then n else k;
      var head, body := whole[..j], whole[1..n];
      SlotAfterDeltas(json, head, i);
      assert head[1..] == body[..j - 1];
      PartlyDelivered(json, whole[0].block, body, j - 1, SlotFold(json, head), b);
      if k > n {
        assert whole[..k] == head + [whole[n]];
        SlotFoldSnoc(json, head, whole[n]);
        StopKeepsPrefix(json, SlotFold(json, head), i, b);
      }
    }
  }
}
