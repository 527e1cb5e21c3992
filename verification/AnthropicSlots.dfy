/** What any stream whatsoever leaves in a content block: the last start of its index decides
    kind and identity, and the deltas since then its texts. */
module AnthropicSlots {
  import opened Llm
  import opened AnthropicModel
  import opened AnthropicStream

  /** Where the last start stands, or -1. */
  ghost function LastStart(es: seq<Event>): (k: int)
    ensures -1 <= k < |es| && (k >= 0 ==> es[k].BlockStart?)
    ensures forall j | k < j < |es| :: !es[j].BlockStart?
  {
    if es == [] then -1 else if es[|es| - 1].BlockStart? then |es| - 1 else LastStart(es[..|es| - 1])
  }

  /** What the block of an index holds: what its last start gave it, then the deltas since. A
      delta for an index that was never opened opens a text block. */
  ghost predicate HoldsSince(b: Block, start: Option<WireBlock>, tail: seq<Event>) {
    var kind := if start.Some? then start.value.kind else Text;
    && b.kind == kind
    && b.text == (if start.Some? && kind == Text then start.value.text else "") + TextsOf(tail)
    && b.thinking == (if start.Some? && kind == Thinking then start.value.thinking else "") + ThinkingOf(tail)
    && b.signature == (if start.Some? && kind == Thinking then start.value.signature else "") + SignatureOf(tail)
    && (b.toolId, b.toolName) == (if start.Some? && kind in {ToolUse, ServerToolUse} then (start.value.id, start.value.name) else ("", ""))
    && (b.toolUseId, b.content)
       == (if start.Some? && kind == WebSearchResult then (start.value.toolUseId, start.value.content) else ("", ""))
  }

  ghost function StartOf(es: seq<Event>): Option<WireBlock> {
    if LastStart(es) >= 0 then Some(es[LastStart(es)].block) else None
  }

  /** What came after the last start. */
  ghost function TailOf(es: seq<Event>): seq<Event> {
    es[LastStart(es) + 1..]
  }

  ghost predicate Said(es: seq<Event>) {
    exists j :: 0 <= j < |es| && es[j].BlockDelta?
  }

  ghost predicate Reads(es: seq<Event>, block: Option<Block>) {
    && (block.Some? <==> StartOf(es).Some? || Said(es))
    && (block.Some? ==> HoldsSince(block.value, StartOf(es), TailOf(es)))
  }

  lemma LastStartSnoc(rest: seq<Event>, e: Event)
    ensures LastStart(rest + [e]) == if e.BlockStart? then |rest| else LastStart(rest)
  {
    assert (rest + [e])[..|rest|] == rest;
  }

  lemma StartSnoc(rest: seq<Event>, e: Event)
    ensures var all := rest + [e];
            if e.BlockStart? then TailOf(all) == [] && StartOf(all) == Some(e.block)
            else TailOf(all) == TailOf(rest) + [e] && StartOf(all) == StartOf(rest)
  {
    hide LastStart;
    LastStartSnoc(rest, e);
    Suffixes(rest, e, LastStart(rest));
  }

  lemma Suffixes<T>(rest: seq<T>, e: T, k: int)
    requires -1 <= k < |rest|
    ensures var all := rest + [e]; all[|rest|] == e && all[|rest| + 1..] == [] && all[k + 1..] == rest[k + 1..] + [e]
    ensures k >= 0 ==> (rest + [e])[k] == rest[k]
  {
  }

  lemma TextsMore(tail: seq<Event>, e: Event)
    ensures e.BlockDelta? ==>
              var all, d := tail + [e], e.delta;
              && TextsOf(all) == TextsOf(tail) + (if d.TextDelta? then d.text else "")
              && ThinkingOf(all) == ThinkingOf(tail) + (if d.ThinkingDelta? then d.thinking else "")
              && SignatureOf(all) == SignatureOf(tail) + (if d.SignatureDelta? then d.signature else "")
    ensures e.BlockStop? ==>
              var all := tail + [e];
              TextsOf(all) == TextsOf(tail) && ThinkingOf(all) == ThinkingOf(tail) && SignatureOf(all) == SignatureOf(tail)
  {
    assert (tail + [e])[..|tail|] == tail;
  }

  lemma StepHolds(b: Block, start: Option<WireBlock>, tail: seq<Event>, i: int, d: Delta)
    requires HoldsSince(b, start, tail)
    ensures HoldsSince(Appended(b, d), start, tail + [BlockDelta(i, d)])
  {
    hide TextsOf, ThinkingOf, SignatureOf;
    TextsMore(tail, BlockDelta(i, d));
  }

  lemma ReadsMore(json: Decoder, s: Slot, rest: seq<Event>, e: Event)
    requires Reads(rest, s.block) && (e.BlockStart? || e.BlockDelta? || e.BlockStop?)
    ensures Reads(rest + [e], SlotStep(json, s, e).block)
  {
    hide HoldsSince, StartOf, TailOf, Said, Opened, Appended, SlotStep;
    StartSnoc(rest, e);
    SaidMore(rest, e);
    StepBlock(json, s, e);
    var head, tail := StartOf(rest), TailOf(rest);
    match e
    case BlockStart(_, b) => JustStarted(b);
    case BlockDelta(i, d) =>
      if s.block.None? {
        Unsaid(rest);
        StepHolds(EmptyBlock(Text), None, tail, i, d);
      } else {
        StepHolds(s.block.value, head, tail, i, d);
      }
    case BlockStop(_) =>
      if s.block.Some? { StopHolds(s.block.value, SlotStep(json, s, e).block.value, head, tail, e); }
  }

  lemma SaidMore(rest: seq<Event>, e: Event)
    ensures Said(rest + [e]) <==> Said(rest) || e.BlockDelta?
  {
    var all := rest + [e];
    assert all[|rest|] == e;
    if j :| 0 <= j < |rest| && rest[j].BlockDelta? { assert all[j].BlockDelta?; }
  }

  lemma StepBlock(json: Decoder, s: Slot, e: Event)
    ensures var r := SlotStep(json, s, e).block;
            && (e.BlockStart? ==> r == Some(Opened(e.block)))
            && (e.BlockDelta? ==> r == Some(Appended(if s.block.Some? then s.block.value else EmptyBlock(Text), e.delta)))
            && (e.BlockStop? ==> (r.Some? <==> s.block.Some?) && (r.Some? ==> r.value == s.block.value.(toolInput := r.value.toolInput)))
  {
    hide Opened, Appended;
  }

  /** Where no block is held yet, an empty text block holds all there was. */
  lemma Unsaid(es: seq<Event>)
    requires StartOf(es) == None && !Said(es)
    ensures HoldsSince(EmptyBlock(Text), None, TailOf(es))
  {
    NothingSaid(es);
    assert es[0..] == es;
  }

  lemma JustStarted(b: WireBlock)
    ensures HoldsSince(Opened(b), Some(b), [])
  {
    NoTexts();
  }

  lemma StopHolds(b: Block, r: Block, start: Option<WireBlock>, tail: seq<Event>, e: Event)
    requires HoldsSince(b, start, tail) && e.BlockStop? && r == b.(toolInput := r.toolInput)
    ensures HoldsSince(r, start, tail + [e])
  {
    hide TextsOf, ThinkingOf, SignatureOf;
    TextsMore(tail, e);
  }

  lemma NoTexts()
    ensures TextsOf([]) == "" && ThinkingOf([]) == "" && SignatureOf([]) == ""
  {
  }

  /** Events without starts and deltas say nothing. */
  lemma {:induction false} NothingSaid(es: seq<Event>)
    requires forall j | 0 <= j < |es| :: !es[j].BlockStart? && !es[j].BlockDelta?
    ensures TextsOf(es) == "" && ThinkingOf(es) == "" && SignatureOf(es) == "" && LastStart(es) == -1
  {
    if es != [] { NothingSaid(es[..|es| - 1]); }
  }

  lemma {:induction false} SlotReads(json: Decoder, es: seq<Event>)
    requires forall e | e in es :: e.BlockStart? || e.BlockDelta? || e.BlockStop?
    ensures Reads(es, SlotFold(json, es).block)
  {
    hide Reads, SlotStep;
    if es == [] {
      assert Reads([], None) by { NothingRead(); }
    } else {
      var rest, e := es[..|es| - 1], es[|es| - 1];
      assert e in es && es == rest + [e];
      SlotReads(json, rest);
      ReadsMore(json, SlotFold(json, rest), rest, e);
    }
  }

  lemma NothingRead()
    ensures Reads([], None)
  {
  }

  lemma {:induction false} BlockEventsOnly(events: seq<Event>, i: int)
    ensures forall e | e in BlockEvents(events, i) :: e.BlockStart? || e.BlockDelta? || e.BlockStop?
  {
    if events != [] { BlockEventsOnly(events[..|events| - 1], i); }
  }

  /** For every stream: each index holds what its last start gave it followed by the deltas
      since, in order, whatever else was interleaved; and it holds a block exactly when a
      start or a delta named it. */
  lemma EverySlotReadsItsEvents(json: Decoder, events: seq<Event>, i: int)
    ensures var s := Fold(json, events); Reads(BlockEvents(events, i), if i in s.blocks then Some(s.blocks[i]) else None)
  {
    hide Fold, SlotFold, Reads, BlockEvents;
    SlotsAreIndependent(json, events, i);
    BlockEventsOnly(events, i);
    SlotReads(json, BlockEvents(events, i));
  }
}
