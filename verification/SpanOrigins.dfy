/** Where everything in the emitted traces comes from: each span field by field and each link
    end by end, in terms of the captured calls alone. */
module SpanOrigins {
  import opened Llm
  import opened DeriveModel
  import opened SpanModel
  import opened SpanTotals
  import SpanFinish
  import SpanPrompts
  import ThreadFixpoint
  import WalkShape

  // ---------------------------------------------------------------- the reference

  /** A call whose conversation is emitted: a main call, or any call of a sub-thread. */
  predicate Talks(c: Call)
    ensures Talks(c) ==> c.chain != []
  {
    c.chain != [] && (c.kind == Main || IsThread(c))
  }

  /** What a conversation hangs from: its thread's agent span, or the root of its trace. */
  function Speaker(c: Call, id: TraceId): SpanId {
    if c.thread != "" then SubAgent(c.thread) else RootAgent(id.opener)
  }

  /** The trace was opened by a call of the session. */
  ghost predicate OfSession(calls: seq<Call>, id: TraceId, s: Session) {
    exists o :: o in calls && o.chain != [] && o.session == s && Identity(o) == id.opener
  }

  /** The tool a call is anchored to: its own anchor, else the stamp of its chain's root. */
  ghost predicate AnchoredBy(c: Call, a: string) {
    if c.anchor != "" then a == c.anchor
    else if exists k :: StampedRoot(c, k) then
      exists k :: StampedRoot(c, k) && a == c.chain[k].forkStamp && forall j | 0 <= j < k :: !StampedRoot(c, j)
    else a == ""
  }

  ghost predicate StampedRoot(c: Call, k: int) {
    0 <= k < |c.chain| && c.chain[k].hash.parent == None && c.chain[k].forkStamp != ""
  }

  /** Block b of the response opens or names a tool call. */
  ghost predicate EmitsBlock(c: Call, b: ContentBlock) {
    c.chain != [] && b in c.chain[|c.chain| - 1].bucket.content
    && (b.kind == ToolUse || b.kind == ServerToolUse) && b.toolUseId != ""
  }

  /** Block b, new to this call at request position i, is the result of tool u. */
  ghost predicate Delivers(c: Call, i: int, b: ContentBlock, u: string)
    ensures Delivers(c, i, b, u) ==> 0 <= i < |c.chain| - 1
  {
    && 0 <= i < |c.chain| - 1 && i < |c.isNew| && c.isNew[i]
    && !c.chain[i].kind.Injected? && (c.chain[i].bucket.role == User || c.chain[i].bucket.role == Tool)
    && b in c.chain[i].bucket.content && b.kind == ToolResult
    && u == if b.toolResultId != "" then b.toolResultId else b.toolUseId
  }

  /** Position i brings injected or system context, past everything the assistant said for
      the first time in this request. */
  ghost predicate Brings(c: Call, i: int)
    ensures Brings(c, i) ==> 0 <= i < |c.chain| - 1
  {
    && 0 <= i < |c.chain| - 1 && i < |c.isNew| && c.isNew[i]
    && (c.chain[i].kind.Injected? || c.chain[i].bucket.role == System)
    && forall j | i <= j < |c.chain| - 1 && j < |c.isNew| && c.isNew[j] :: c.chain[j].bucket.role != Assistant
  }

  /** A sub-thread call none of whose support was there when the placed calls ended. */
  ghost predicate Unsupported(calls: seq<Call>, c: Call)
    requires WellFormed(calls)
  {
    var spine, threads := Spine(calls, |calls|), Only(calls, IsThread);
    !ThreadFixpoint.Supported(spine, ThreadFixpoint.Members(ThreadFixpoint.Order(spine, threads)), c)
  }

  ghost predicate RootTold(calls: seq<Call>, id: TraceId, s: Session, sp: Span) {
    exists c :: c in calls && c.chain != [] && c.session == s && id == Trace(Identity(c))
                && sp == Span(Fixed(RootAgent(Identity(c)), None, AgentSpan, None, "", "", None, c.at, []), [], false, 0)
  }

  ghost function LlmParent(calls: seq<Call>, c: Call, id: TraceId): SpanId {
    if Talks(c) then Speaker(c, id)
    else if c.kind != Compaction && EmittedBySome(calls, Key(c.session, c.anchor)) then ToolCall(c.anchor)
    else RootAgent(id.opener)
  }

  ghost predicate LlmTold(calls: seq<Call>, id: TraceId, s: Session, sp: Span) {
    exists c :: c in calls && c.chain != [] && c.session == s
                && var resp := c.chain[|c.chain| - 1];
                   sp == Span(Fixed(LlmCall(Identity(c)), Some(LlmParent(calls, c, id)), LlmSpan,
                                    Some(if c.kind == Compaction && c.thread != "" then Main else c.kind), c.thread,
                                    resp.bucket.model, resp.usage, c.at, InputOf(c)),
                              resp.bucket.content, false, if resp.usage.Some? then resp.usage.value.durationNs else 0)
  }

  /** A tool span waits for its result, or holds the first one that some call delivered. */
  ghost predicate Settles(calls: seq<Call>, s: Session, u: string, sp: Span) {
    || (sp.output == [] && !sp.failed && sp.duration == 0)
    || exists c, i, b :: c in calls && Talks(c) && c.session == s && Delivers(c, i, b, u) && Holds(c, i, b, sp)
  }

  ghost predicate Holds(c: Call, i: int, b: ContentBlock, sp: Span)
    requires 0 <= i < |c.chain|
  {
    var took := c.chain[i].capturedAt - sp.fixed.startedAt;
    sp.output == [b] && sp.failed == b.isError && sp.duration == if took > 0 then took else 0
  }

  ghost predicate ToolTold(calls: seq<Call>, id: TraceId, s: Session, sp: Span) {
    exists c, b :: c in calls && Talks(c) && c.session == s && EmitsBlock(c, b)
                   && sp.fixed == Fixed(ToolCall(b.toolUseId), Some(Speaker(c, id)), ToolSpan, None, c.thread, "", None, c.at, [b])
                   && Settles(calls, s, b.toolUseId, sp)
  }

  /** The agent hangs under its anchor tool, or under the root where nothing supported it. */
  ghost predicate Hung(calls: seq<Call>, c: Call, id: TraceId, parent: Option<SpanId>)
    requires WellFormed(calls)
  {
    || (exists a :: AnchoredBy(c, a) && parent == Some(ToolCall(a)))
    || (parent == Some(RootAgent(id.opener)) && Unsupported(calls, c))
  }

  ghost predicate AgentTold(calls: seq<Call>, id: TraceId, s: Session, sp: Span)
    requires WellFormed(calls)
  {
    exists c :: c in calls && Talks(c) && c.thread != "" && c.session == s && Hung(calls, c, id, sp.fixed.parent)
                && sp.fixed == Fixed(SubAgent(c.thread), sp.fixed.parent, AgentSpan, None, c.thread, "", None, c.at, [])
                && sp.output == [] && !sp.failed && Lasts(calls, c, sp.duration)
  }

  ghost predicate Lasts(calls: seq<Call>, c: Call, duration: int) {
    || duration == 0
    || exists e :: e in calls && Talks(e) && ThreadKey(e) == ThreadKey(c) && duration == e.at - c.at > 0
  }

  ghost predicate EventTold(calls: seq<Call>, id: TraceId, s: Session, sp: Span) {
    exists c, i :: c in calls && Talks(c) && c.session == s && Brings(c, i)
                   && var n := c.chain[i];
                      sp == Span(Fixed(EventOf(n.hash), Some(Speaker(c, id)), EventSpan,
                                       Some(if n.kind.Injected? then n.kind else Injected("system-insert")), "", "", None,
                                       n.capturedAt, n.bucket.content),
                                 [], false, 0)
  }

  ghost predicate SpanTold(calls: seq<Call>, id: TraceId, s: Session, sp: Span)
    requires WellFormed(calls)
  {
    match sp.fixed.id
    case RootAgent(_) => RootTold(calls, id, s, sp)
    case LlmCall(_) => LlmTold(calls, id, s, sp)
    case ToolCall(_) => ToolTold(calls, id, s, sp)
    case SubAgent(_) => AgentTold(calls, id, s, sp)
    case EventOf(_) => EventTold(calls, id, s, sp)
  }

  /** What a link of each kind says, within one session. */
  ghost predicate Says(calls: seq<Call>, s: Session, l: Link) {
    match l.kind
    case Emits =>
      exists c, b :: c in calls && Talks(c) && c.session == s && EmitsBlock(c, b)
                     && l.fromSpan == LlmCall(Identity(c)) && l.toSpan == ToolCall(b.toolUseId)
    case Feeds =>
      exists c, i, b, u :: c in calls && Talks(c) && c.session == s && Delivers(c, i, b, u)
                           && l.fromSpan == ToolCall(u) && l.toSpan == LlmCall(Identity(c))
    case Rejoin =>
      exists c, a :: c in calls && Talks(c) && c.thread != "" && c.session == s && AnchoredBy(c, a)
                     && l.fromSpan == SubAgent(c.thread) && l.toSpan == ToolCall(a)
    case Verdict =>
      exists c :: c in calls && c.chain != [] && IsShadow(c) && c.session == s
                  && l.fromSpan == LlmCall(Identity(c)) && l.toSpan == ToolCall(c.anchor)
    case CompactionSeam =>
      exists k, o :: k in calls && k.chain != [] && Summarises(k) && k.session == s && o in calls && o.chain != [] && o.session == s
                     && l.fromSpan == LlmCall(Identity(k)) && l.toSpan == LlmCall(Identity(o)) && l.toTrace == Trace(Identity(o))
  }

  ghost predicate LinkTold(calls: seq<Call>, l: Link) {
    exists s :: OfSession(calls, l.fromTrace, s) && OfSession(calls, l.toTrace, s) && Says(calls, s, l)
  }

  // ---------------------------------------------------------------- the invariant

  /** When a span ends as it is added: tools and agents are stretched only later. */
  function BornEnd(sp: Span): int {
    if sp.fixed.kind == LlmSpan || sp.fixed.kind == EventSpan then SpanEnd(sp) else sp.fixed.startedAt
  }

  /** A trace starts with its root and ends, before it is finished, where the last of its
      spans did as they were added. */
  ghost predicate Windowed(turn: Turn)
    ensures Windowed(turn) ==> turn.spans != [] && turn.startedAt == turn.spans[0].fixed.startedAt
  {
    && turn.spans != [] && turn.startedAt == turn.spans[0].fixed.startedAt
    && (exists k :: 0 <= k < |turn.spans| && turn.endedAt == BornEnd(turn.spans[k]))
    && forall k | 0 <= k < |turn.spans| :: BornEnd(turn.spans[k]) <= turn.endedAt
  }

  ghost predicate TurnTold(calls: seq<Call>, turn: Turn)
    requires WellFormed(calls)
  {
    && OfSession(calls, turn.traceId, turn.session) && Windowed(turn)
    && turn.spans != [] && turn.spans[0].fixed.id == RootAgent(turn.traceId.opener)
    && (forall k | 0 <= k < |turn.spans| :: SpanTold(calls, turn.traceId, turn.session, turn.spans[k]))
    && (forall l | l in turn.links :: LinkTold(calls, l))
  }

  /** The armed seam of a session points at the llm span of one of its compactions. */
  ghost predicate SeamTold(calls: seq<Call>, turns: seq<Turn>, r: Ref, s: Session) {
    && r.turn < |turns| && r.span < |turns[r.turn].spans|
    && exists k :: k in calls && k.chain != [] && Summarises(k) && k.session == s
                   && turns[r.turn].spans[r.span].fixed.id == LlmCall(Identity(k))
  }

  ghost predicate Told(calls: seq<Call>, em: Em)
    requires WellFormed(calls)
  {
    && (forall t | 0 <= t < |em.turns| :: TurnTold(calls, em.turns[t]))
    && (forall l | l in em.cross :: LinkTold(calls, l))
    && (forall s | s in em.seam :: SeamTold(calls, em.turns, em.seam[s], s))
  }

  // ---------------------------------------------------------------- primitive steps

  lemma SeamsStay(calls: seq<Call>, a: Em, b: Em)
    requires Grows(a, b) && forall s | s in a.seam :: SeamTold(calls, a.turns, a.seam[s], s)
    ensures forall s | s in a.seam :: SeamTold(calls, b.turns, a.seam[s], s)
  {
    forall s | s in a.seam ensures SeamTold(calls, b.turns, a.seam[s], s) {
      var r := a.seam[s];
      assert TurnGrows(a.turns[r.turn], b.turns[r.turn]);
      assert SpanGrows(a.turns[r.turn].spans[r.span], b.turns[r.turn].spans[r.span]);
    }
  }

  lemma TurnTalks(calls: seq<Call>, em: Em, t: nat)
    requires WellFormed(calls) && Told(calls, em) && t < |em.turns|
    ensures TurnTold(calls, em.turns[t])
  {
  }

  lemma WindowAdds(x: Turn, y: Turn, sp: Span)
    requires Windowed(x) && y.spans == x.spans + [sp] && y.startedAt == x.startedAt && y.endedAt == Max(x.endedAt, BornEnd(sp))
    ensures Windowed(y)
  {
    hide BornEnd;
    var k :| 0 <= k < |x.spans| && x.endedAt == BornEnd(x.spans[k]);
    assert y.spans[k] == x.spans[k] && y.spans[|x.spans|] == sp;
  }

  lemma WindowStays(x: Turn, y: Turn, i: nat, sp: Span)
    requires Windowed(x) && i < |x.spans| && y.spans == x.spans[i := sp] && y.startedAt == x.startedAt && y.endedAt == x.endedAt
    requires BornEnd(sp) == BornEnd(x.spans[i]) && sp.fixed == x.spans[i].fixed
    ensures Windowed(y)
  {
    hide BornEnd;
    var k :| 0 <= k < |x.spans| && x.endedAt == BornEnd(x.spans[k]);
    assert BornEnd(y.spans[k]) == BornEnd(x.spans[k]);
  }

  lemma AddSpanTold(calls: seq<Call>, em: Em, t: nat, sp: Span)
    requires WellFormed(calls) && Valid(em) && Told(calls, em) && t < |em.turns|
    requires SpanTold(calls, em.turns[t].traceId, em.turns[t].session, sp) && BornEnd(sp) == SpanEnd(sp)
    ensures Told(calls, AddSpan(em, t, sp))
  {
    hide Valid, Grows, TurnsGrow, SpanTold, LinkTold, SeamTold, OfSession, BornEnd, SpanEnd, Windowed;
    var r := AddSpan(em, t, sp);
    TurnTalks(calls, em, t);
    WindowAdds(em.turns[t], r.turns[t], sp);
    SeamsStay(calls, em, r);
  }

  lemma AddLinkTold(calls: seq<Call>, em: Em, host: nat, l: Link)
    requires WellFormed(calls) && Valid(em) && Told(calls, em) && host < |em.turns| && LinkTold(calls, l)
    ensures Told(calls, AddLink(em, host, l))
  {
    hide Valid, Grows, TurnsGrow, SpanTold, LinkTold, SeamTold, OfSession, BornEnd;
    SeamsStay(calls, em, AddLink(em, host, l));
  }

  lemma SetSpanTold(calls: seq<Call>, em: Em, r: Ref, sp: Span)
    requires WellFormed(calls) && Valid(em) && Told(calls, em)
    requires r.turn < |em.turns| && r.span < |em.turns[r.turn].spans| && SpanGrows(SpanAt(em, r), sp)
    requires SpanTold(calls, em.turns[r.turn].traceId, em.turns[r.turn].session, sp)
    requires sp.fixed.kind == ToolSpan || sp.fixed.kind == AgentSpan
    ensures Told(calls, SetSpan(em, r, sp))
  {
    hide Valid, Grows, TurnsGrow, SpanTold, LinkTold, SeamTold, OfSession, Windowed;
    TurnTalks(calls, em, r.turn);
    WindowStays(em.turns[r.turn], SetSpan(em, r, sp).turns[r.turn], r.span, sp);
    SeamsStay(calls, em, SetSpan(em, r, sp));
  }

  /** Opening a trace for a call of the list. */
  lemma PushTold(calls: seq<Call>, em: Em, c: Call, prompt: Option<Hash>)
    requires WellFormed(calls) && Valid(em) && Told(calls, em) && c in calls && c.chain != []
    ensures Told(calls, PushTurn(em, TurnOpenedBy(c, prompt)))
  {
    hide Valid, Grows, TurnsGrow, LinkTold, SeamTold;
    var turn := TurnOpenedBy(c, prompt);
    var r := PushTurn(em, turn);
    assert RootTold(calls, turn.traceId, turn.session, turn.spans[0]);
    assert TurnTold(calls, turn);
    hide TurnTold;
    SeamsStay(calls, em, r);
  }

  lemma MarkTold(calls: seq<Call>, em: Em, t: nat, why: Synthetic)
    requires WellFormed(calls) && Valid(em) && Told(calls, em) && t < |em.turns|
    ensures Told(calls, MarkSynthetic(em, t, why))
  {
    hide Valid, Grows, TurnsGrow, SpanTold, LinkTold, SeamTold, OfSession, BornEnd;
    SeamsStay(calls, em, MarkSynthetic(em, t, why));
  }

  lemma SeamIsOf(calls: seq<Call>, em: Em, s: Session)
    requires WellFormed(calls) && Told(calls, em) && s in em.seam
    ensures SeamTold(calls, em.turns, em.seam[s], s)
  {
  }

  lemma SeamSays(calls: seq<Call>, s: Session, from: TraceId, fromSpan: SpanId, c: Call)
    requires exists k :: k in calls && k.chain != [] && Summarises(k) && k.session == s && fromSpan == LlmCall(Identity(k))
    requires c in calls && c.chain != [] && c.session == s && OfSession(calls, from, s)
    ensures LinkTold(calls, Link(from, fromSpan, Trace(Identity(c)), LlmCall(Identity(c)), CompactionSeam))
  {
    hide Identity;
    assert OfSession(calls, Trace(Identity(c)), c.session);
    assert Says(calls, s, Link(from, fromSpan, Trace(Identity(c)), LlmCall(Identity(c)), CompactionSeam));
  }

  lemma SeamLinkTold(calls: seq<Call>, em: Em, c: Call)
    requires WellFormed(calls) && Valid(em) && Told(calls, em) && c in calls && c.chain != [] && c.session in em.seam
    ensures LinkTold(calls, SeamLink(em, c))
  {
    hide Valid, Grows, TurnsGrow, SpanTold, Told, LinkTold, OfSession, Identity;
    SeamPlace(em, c.session);
    SeamIsOf(calls, em, c.session);
    var from := em.seam[c.session];
    TurnTalks(calls, em, from.turn);
    SeamSays(calls, c.session, em.turns[from.turn].traceId, SpanAt(em, from).fixed.id, c);
  }

  lemma OpenTraceTold(calls: seq<Call>, em: Em, c: Call, prompt: Option<Hash>)
    requires WellFormed(calls) && Valid(em) && Told(calls, em) && c in calls && c.chain != []
    ensures Told(calls, OpenTrace(em, c, prompt))
  {
    hide Valid, Grows, TurnsGrow, Told, SeamLink, TurnOpenedBy, MarkSynthetic;
    WalkShape.OpenedByCall(c, prompt);
    PushTold(calls, em, c, prompt);
    var pushed := PushTurn(em, TurnOpenedBy(c, prompt));
    if c.session in em.seam {
      SeamLinkTold(calls, pushed, c);
      MarkTold(calls, pushed, |em.turns|, PostCompaction);
      var marked := MarkSynthetic(pushed, |em.turns|, PostCompaction);
      FewerSeams(calls, marked, TakeSeam(pushed, c.session, |em.turns|));
      AddLinkTold(calls, TakeSeam(pushed, c.session, |em.turns|), |em.turns|, SeamLink(pushed, c));
    }
  }

  lemma FewerSeams(calls: seq<Call>, a: Em, b: Em)
    requires WellFormed(calls) && Told(calls, a) && b.turns == a.turns && b.cross == a.cross
    requires forall s | s in b.seam :: s in a.seam && b.seam[s] == a.seam[s]
    ensures Told(calls, b)
  {
    hide TurnTold, LinkTold, SeamTold;
  }

  lemma EnsureTraceTold(calls: seq<Call>, em: Em, c: Call)
    requires WellFormed(calls) && Valid(em) && Told(calls, em) && c in calls && c.chain != []
    ensures Told(calls, EnsureTrace(em, c))
  {
    hide Valid, Grows, Told, OpenTrace, MarkSynthetic;
    if c.session !in em.cur {
      OpenTraceTold(calls, em, c, None);
      MarkTold(calls, OpenTrace(em, c, None), |em.turns|, ShadowOpener);
    }
  }

  lemma AddToolTold(calls: seq<Call>, em: Em, t: nat, sp: Span, k: Key)
    requires WellFormed(calls) && Valid(em) && Told(calls, em) && TurnOf(em.turns, t, k.session) && k !in em.tools
    requires sp.fixed.kind == ToolSpan && sp.fixed.id == ToolCall(k.id) && sp.duration == 0
    requires SpanTold(calls, em.turns[t].traceId, em.turns[t].session, sp)
    ensures Told(calls, AddTool(em, t, sp, k))
  {
    hide Valid, Grows, TurnsGrow, SpanTold, TurnTold, SeamTold;
    AddSpanTold(calls, em, t, sp);
  }

  lemma AddAgentTold(calls: seq<Call>, em: Em, t: nat, sp: Span, k: Key)
    requires WellFormed(calls) && Valid(em) && Told(calls, em) && TurnOf(em.turns, t, k.session) && k !in em.agents
    requires sp.fixed.kind == AgentSpan && sp.fixed.id == SubAgent(k.id) && sp.duration == 0
    requires SpanTold(calls, em.turns[t].traceId, em.turns[t].session, sp)
    ensures Told(calls, AddAgent(em, t, sp, k))
  {
    hide Valid, Grows, TurnsGrow, SpanTold, TurnTold, SeamTold;
    AddSpanTold(calls, em, t, sp);
  }

  // ---------------------------------------------------------------- one conversation

  /** Every key of the list is a tool this call delivers a result of. */
  ghost predicate FeedsTold(c: Call, feeds: seq<Key>) {
    forall k | k in feeds :: k.session == c.session && exists i, b :: Delivers(c, i, b, k.id)
  }

  lemma ToolIsTold(calls: seq<Call>, em: Em, k: Key)
    requires WellFormed(calls) && Valid(em) && Told(calls, em) && k in em.tools
    ensures var r := em.tools[k];
            && r.turn < |em.turns| && r.span < |em.turns[r.turn].spans| && em.turns[r.turn].session == k.session
            && SpanAt(em, r).fixed.id == ToolCall(k.id) && SpanAt(em, r).fixed.kind == ToolSpan
            && ToolTold(calls, em.turns[r.turn].traceId, k.session, SpanAt(em, r))
  {
    hide Valid, ToolTold;
    ToolPlace(em, k);
    var r := em.tools[k];
    TurnTalks(calls, em, r.turn);
    assert SpanTold(calls, em.turns[r.turn].traceId, em.turns[r.turn].session, em.turns[r.turn].spans[r.span]);
  }

  lemma FillTold(calls: seq<Call>, em: Em, c: Call, i: nat, b: ContentBlock)
    requires WellFormed(calls) && Valid(em) && Told(calls, em) && c in calls && Talks(c) && i < |c.chain|
    requires Delivers(c, i, b, if b.toolResultId != "" then b.toolResultId else b.toolUseId)
    ensures Told(calls, Fill(em, c.session, b, c.chain[i].capturedAt).0)
    ensures var fed := Fill(em, c.session, b, c.chain[i].capturedAt).1;
            fed.Some? ==> fed.value.session == c.session && Delivers(c, i, b, fed.value.id)
  {
    hide Valid, Grows, TurnsGrow, SetSpan, Talks, Delivers, Told, SpanTold, ToolTold;
    var u := if b.toolResultId != "" then b.toolResultId else b.toolUseId;
    var k, at := Key(c.session, u), c.chain[i].capturedAt;
    if k in em.tools {
      ToolIsTold(calls, em, k);
      var r := em.tools[k];
      var ts := SpanAt(em, r);
      if ts.output == [] {
        var d := at - ts.fixed.startedAt;
        var sp := ts.(output := [b], failed := ts.failed || b.isError, duration := if d > 0 then d else ts.duration);
        AnsweredTool(calls, em.turns[r.turn].traceId, c.session, ts, sp, c, i, b, u);
        SetSpanTold(calls, em, r, sp);
      }
    }
  }

  lemma AnsweredTool(calls: seq<Call>, id: TraceId, s: Session, ts: Span, sp: Span, c: Call, i: nat, b: ContentBlock, u: string)
    requires WellFormed(calls) && ToolTold(calls, id, s, ts) && ts.output == [] && ts.fixed.id == ToolCall(u)
    requires c in calls && Talks(c) && c.session == s && i < |c.chain| && Delivers(c, i, b, u)
    requires var d := c.chain[i].capturedAt - ts.fixed.startedAt;
             sp == ts.(output := [b], failed := ts.failed || b.isError, duration := if d > 0 then d else ts.duration)
    ensures SpanTold(calls, id, s, sp)
  {
    hide Talks, Delivers, EmitsBlock;
    assert Holds(c, i, b, sp);
    assert Settles(calls, s, u, sp);
    assert ToolTold(calls, id, s, sp);
  }

  lemma {:induction false} ScanResultsTold(calls: seq<Call>, em: Em, c: Call, i: nat, j: nat, feeds: seq<Key>)
    requires WellFormed(calls) && Valid(em) && Told(calls, em) && c in calls && Talks(c) && c.Valid()
    requires i < |c.chain| - 1 && c.isNew[i] && !c.chain[i].kind.Injected?
    requires c.chain[i].bucket.role == User || c.chain[i].bucket.role == Tool
    requires j <= |c.chain[i].bucket.content| && FeedsTold(c, feeds)
    requires forall k | k in feeds :: k in em.tools && k.session == c.session
    ensures var r := ScanResults(em, c.session, c.chain[i].bucket.content, c.chain[i].capturedAt, j, feeds);
            Told(calls, r.0) && FeedsTold(c, r.1)
    decreases |c.chain[i].bucket.content| - j
  {
    hide Valid, Grows, Fill, Told, Talks;
    var blocks, at := c.chain[i].bucket.content, c.chain[i].capturedAt;
    if j < |blocks| {
      if blocks[j].kind != ToolResult {
        ScanResultsTold(calls, em, c, i, j + 1, feeds);
      } else {
        var b := blocks[j];
        assert b in blocks && Delivers(c, i, b, if b.toolResultId != "" then b.toolResultId else b.toolUseId);
        var f := Fill(em, c.session, b, at);
        FillTold(calls, em, c, i, b);
        var more := if f.1.Some? then feeds + [f.1.value] else feeds;
        FeedsStay(em, f.0, more, c.session);
        ScanResultsTold(calls, f.0, c, i, j + 1, more);
      }
    }
  }

  lemma PastBoundary(c: Call, i: nat)
    requires c.Valid() && i < |c.chain| - 1 && i > Boundary(c)
    ensures forall j | i <= j < |c.chain| - 1 && c.isNew[j] :: c.chain[j].bucket.role != Assistant
  {
    SpanPrompts.LastFreshMeans(c, |c.chain| - 1);
  }

  lemma EventIsTold(calls: seq<Call>, em: Em, c: Call, t: nat, i: nat, kind: Kind)
    requires WellFormed(calls) && t < |em.turns| && em.turns[t].session == c.session
    requires c in calls && Talks(c) && c.Valid() && i < |c.chain| - 1 && c.isNew[i] && i > Boundary(c)
    requires if c.chain[i].kind.Injected? then kind == c.chain[i].kind
             else c.chain[i].bucket.role == System && kind == Injected("system-insert")
    ensures var sp := EventSpanOf(c, Speaker(c, em.turns[t].traceId), kind, c.chain[i]);
            SpanTold(calls, em.turns[t].traceId, em.turns[t].session, sp) && BornEnd(sp) == SpanEnd(sp)
  {
    hide Talks, Boundary;
    PastBoundary(c, i);
    assert Brings(c, i);
    assert EventTold(calls, em.turns[t].traceId, em.turns[t].session,
                     EventSpanOf(c, Speaker(c, em.turns[t].traceId), kind, c.chain[i]));
  }

  lemma ScanNodeTold(calls: seq<Call>, em: Em, c: Call, t: nat, i: nat, feeds: seq<Key>)
    requires WellFormed(calls) && Valid(em) && Told(calls, em) && c in calls && Talks(c) && c.Valid() && i < |c.chain| - 1
    requires t < |em.turns| && em.turns[t].session == c.session && FeedsTold(c, feeds)
    requires forall k | k in feeds :: k in em.tools && k.session == c.session
    ensures var r := ScanNode(em, c, t, Speaker(c, em.turns[t].traceId), i, feeds); Told(calls, r.0) && FeedsTold(c, r.1)
  {
    hide Valid, Grows, AddSpan, ScanResults, Told, FeedsTold, Boundary, Talks, EventSpanOf, SpanTold, Speaker;
    var n, parent := c.chain[i], Speaker(c, em.turns[t].traceId);
    if c.isNew[i] {
      if n.kind.Injected? {
        if i > Boundary(c) {
          EventIsTold(calls, em, c, t, i, n.kind);
          AddSpanTold(calls, em, t, EventSpanOf(c, parent, n.kind, n));
        }
      } else if n.bucket.role == System {
        if i > Boundary(c) {
          EventIsTold(calls, em, c, t, i, Injected("system-insert"));
          AddSpanTold(calls, em, t, EventSpanOf(c, parent, Injected("system-insert"), n));
        }
      } else if n.bucket.role == User || n.bucket.role == Tool {
        ScanResultsTold(calls, em, c, i, 0, feeds);
      }
    }
  }

  lemma {:induction false} ScanRequestTold(calls: seq<Call>, em: Em, c: Call, t: nat, i: nat, feeds: seq<Key>)
    requires WellFormed(calls) && Valid(em) && Told(calls, em) && c in calls && Talks(c) && c.Valid() && i < |c.chain|
    requires t < |em.turns| && em.turns[t].session == c.session && FeedsTold(c, feeds)
    requires forall k | k in feeds :: k in em.tools && k.session == c.session
    ensures var r := ScanRequest(em, c, t, Speaker(c, em.turns[t].traceId), i, feeds); Told(calls, r.0) && FeedsTold(c, r.1)
    decreases |c.chain| - i
  {
    hide Valid, Grows, ScanNode, Told, FeedsTold, Talks, Speaker;
    if i < |c.chain| - 1 {
      var n := ScanNode(em, c, t, Speaker(c, em.turns[t].traceId), i, feeds);
      ScanNodeTold(calls, em, c, t, i, feeds);
      StaysTurn(em, n.0, t);
      ScanRequestTold(calls, n.0, c, t, i + 1, n.1);
    }
  }

  lemma StaysTurn(a: Em, b: Em, t: nat)
    requires Grows(a, b) && t < |a.turns|
    ensures t < |b.turns| && b.turns[t].traceId == a.turns[t].traceId && b.turns[t].session == a.turns[t].session
  {
    TurnStays(a, b, t);
  }

  lemma FeedLinkTold(calls: seq<Call>, em: Em, c: Call, t: nat, k: Key)
    requires WellFormed(calls) && Valid(em) && Told(calls, em) && c in calls && Talks(c) && k in em.tools
    requires t < |em.turns| && em.turns[t].session == c.session && FeedsTold(c, [k])
    ensures LinkTold(calls, FeedLink(em, k, t, LlmCall(Identity(c))))
  {
    hide Valid, Grows, Told, SpanTold, OfSession, Talks, Delivers;
    ToolPlace(em, k);
    assert k in [k];
    var i, b :| Delivers(c, i, b, k.id);
    TurnIsOf(calls, em, em.tools[k].turn);
    TurnIsOf(calls, em, t);
    assert Says(calls, c.session, FeedLink(em, k, t, LlmCall(Identity(c))));
  }

  lemma {:induction false} LinkFeedsTold(calls: seq<Call>, em: Em, c: Call, feeds: seq<Key>, t: nat, i: nat)
    requires WellFormed(calls) && Valid(em) && Told(calls, em) && c in calls && Talks(c) && i <= |feeds|
    requires t < |em.turns| && em.turns[t].session == c.session && FeedsTold(c, feeds) && forall k | k in feeds :: k in em.tools
    ensures Told(calls, LinkFeeds(em, feeds, t, LlmCall(Identity(c)), i))
    decreases |feeds| - i
  {
    hide Valid, Grows, AddLink, FeedLink, Told, LinkTold, Talks;
    if i < |feeds| {
      assert feeds[i] in feeds;
      FeedLinkTold(calls, em, c, t, feeds[i]);
      var l := FeedLink(em, feeds[i], t, LlmCall(Identity(c)));
      AddLinkTold(calls, em, t, l);
      StaysTurn(em, AddLink(em, t, l), t);
      LinkFeedsTold(calls, AddLink(em, t, l), c, feeds, t, i + 1);
    }
  }

  lemma EmitLinkTold(calls: seq<Call>, c: Call, b: ContentBlock, from: TraceId, to: TraceId)
    requires c in calls && Talks(c) && EmitsBlock(c, b) && OfSession(calls, from, c.session) && OfSession(calls, to, c.session)
    ensures LinkTold(calls, Link(from, LlmCall(Identity(c)), to, ToolCall(b.toolUseId), Emits))
  {
    hide Talks, EmitsBlock, OfSession;
    assert Says(calls, c.session, Link(from, LlmCall(Identity(c)), to, ToolCall(b.toolUseId), Emits));
  }

  lemma NewToolTold(calls: seq<Call>, c: Call, b: ContentBlock, id: TraceId)
    requires WellFormed(calls) && c in calls && Talks(c) && EmitsBlock(c, b)
    ensures SpanTold(calls, id, c.session, ToolSpanOf(c, Speaker(c, id), b))
  {
    hide Talks, EmitsBlock;
    assert ToolTold(calls, id, c.session, ToolSpanOf(c, Speaker(c, id), b));
  }

  lemma EmitToolTold(calls: seq<Call>, em: Em, c: Call, t: nat, b: ContentBlock)
    requires WellFormed(calls) && Valid(em) && Told(calls, em) && c in calls && Talks(c) && b in c.Response().bucket.content
    requires t < |em.turns| && em.turns[t].session == c.session
    ensures Told(calls, EmitTool(em, c, t, Speaker(c, em.turns[t].traceId), b))
  {
    hide Valid, Grows, TurnsGrow, AddLink, AddTool, Told, LinkTold, Talks, Speaker, ToolSpanOf, SpanTold;
    var k := Key(c.session, b.toolUseId);
    var id := em.turns[t].traceId;
    var llm := LlmCall(Identity(c));
    if Emission(b) {
      assert EmitsBlock(c, b);
      TurnIsOf(calls, em, t);
      if k in em.tools {
        ToolPlace(em, k);
        TurnIsOf(calls, em, em.tools[k].turn);
        EmitLinkTold(calls, c, b, id, em.turns[em.tools[k].turn].traceId);
        AddLinkTold(calls, em, t, Link(id, llm, em.turns[em.tools[k].turn].traceId, ToolCall(k.id), Emits));
      } else {
        var sp := ToolSpanOf(c, Speaker(c, id), b);
        ToolSpanShape(c, Speaker(c, id), b);
        NewToolTold(calls, c, b, id);
        AddToolTold(calls, em, t, sp, k);
        EmitLinkTold(calls, c, b, id, id);
        AddLinkTold(calls, AddTool(em, t, sp, k), t, Link(id, llm, id, ToolCall(k.id), Emits));
      }
    }
  }

  lemma ToolSpanShape(c: Call, parent: SpanId, b: ContentBlock)
    ensures ToolSpanOf(c, parent, b).fixed.kind == ToolSpan && ToolSpanOf(c, parent, b).fixed.id == ToolCall(b.toolUseId)
    ensures ToolSpanOf(c, parent, b).duration == 0
  {
  }

  lemma TurnIsOf(calls: seq<Call>, em: Em, t: nat)
    requires WellFormed(calls) && Told(calls, em) && t < |em.turns|
    ensures OfSession(calls, em.turns[t].traceId, em.turns[t].session)
    ensures em.turns[t].spans != [] && em.turns[t].spans[0].fixed.id == RootAgent(em.turns[t].traceId.opener)
  {
    TurnTalks(calls, em, t);
  }

  lemma {:induction false} EmitToolsTold(calls: seq<Call>, em: Em, c: Call, t: nat, j: nat)
    requires WellFormed(calls) && Valid(em) && Told(calls, em) && c in calls && Talks(c) && j <= |c.Response().bucket.content|
    requires t < |em.turns| && em.turns[t].session == c.session
    ensures Told(calls, EmitTools(em, c, t, Speaker(c, em.turns[t].traceId), c.Response().bucket.content, j))
    decreases |c.Response().bucket.content| - j
  {
    hide Valid, Grows, TurnsGrow, EmitTool, Told, Talks, Speaker;
    var blocks := c.Response().bucket.content;
    if j < |blocks| {
      EmitToolTold(calls, em, c, t, blocks[j]);
      var e := EmitTool(em, c, t, Speaker(c, em.turns[t].traceId), blocks[j]);
      StaysTurn(em, e, t);
      EmitToolsTold(calls, e, c, t, j + 1);
    }
  }

  lemma TalkingLlmTold(calls: seq<Call>, c: Call, id: TraceId)
    requires WellFormed(calls) && c in calls && Talks(c)
    ensures var sp := LlmSpanOf(c, Speaker(c, id), FreshInput(c)); SpanTold(calls, id, c.session, sp) && BornEnd(sp) == SpanEnd(sp)
  {
    hide FreshInput;
    assert c.Valid();
    assert LlmTold(calls, id, c.session, LlmSpanOf(c, Speaker(c, id), FreshInput(c)));
  }

  lemma EmitConversationTold(calls: seq<Call>, em: Em, c: Call, t: nat)
    requires WellFormed(calls) && Valid(em) && Told(calls, em) && c in calls && Talks(c) && c.Valid()
    requires t < |em.turns| && em.turns[t].session == c.session
    ensures Told(calls, EmitConversation(em, c, t, Speaker(c, em.turns[t].traceId)))
  {
    hide Valid, Grows, TurnsGrow, ScanRequest, LlmSpanOf, AddSpan, LinkFeeds, EmitTools, FreshInput, Told, Talks, Speaker, SpanTold;
    var parent := Speaker(c, em.turns[t].traceId);
    var scan := ScanRequest(em, c, t, parent, 0, []);
    assert FeedsTold(c, []);
    ScanRequestTold(calls, em, c, t, 0, []);
    StaysTurn(em, scan.0, t);
    var withLlm := AddSpan(scan.0, t, LlmSpanOf(c, parent, FreshInput(c)));
    TalkingLlmTold(calls, c, em.turns[t].traceId);
    AddSpanTold(calls, scan.0, t, LlmSpanOf(c, parent, FreshInput(c)));
    StaysTurn(scan.0, withLlm, t);
    var fed := LinkFeeds(withLlm, scan.1, t, LlmCall(Identity(c)), 0);
    LinkFeedsTold(calls, withLlm, c, scan.1, t, 0);
    StaysTurn(withLlm, fed, t);
    EmitToolsTold(calls, fed, c, t, 0);
  }

  // ---------------------------------------------------------------- the four call shapes

  lemma MainCallTold(calls: seq<Call>, em: Em, c: Call)
    requires WellFormed(calls) && Valid(em) && Told(calls, em) && c in calls && c.Valid()
    requires c.chain != [] && c.kind == Main && c.thread == ""
    ensures Told(calls, MainCall(em, c))
  {
    hide Valid, Grows, OpenTrace, EmitConversation, Told, SpanModel.Prompt;
    var started := if c.session !in em.cur || SpanModel.Prompt(c).Some? then OpenTrace(em, c, SpanModel.Prompt(c)) else em;
    if c.session !in em.cur || SpanModel.Prompt(c).Some? { OpenTraceTold(calls, em, c, SpanModel.Prompt(c)); }
    CurrentTurn(started, c.session);
    var t := started.cur[c.session];
    TurnIsOf(calls, started, t);
    EmitConversationTold(calls, started, c, t);
  }

  lemma {:induction false} StampMeans(c: Call, i: nat)
    requires i <= |c.chain|
    ensures if exists k :: i <= k && StampedRoot(c, k) then
              exists k :: i <= k && StampedRoot(c, k) && RootStamp(c.chain, i) == c.chain[k].forkStamp
                          && forall j | i <= j < k :: !StampedRoot(c, j)
            else RootStamp(c.chain, i) == ""
    decreases |c.chain| - i
  {
    if i < |c.chain| && !StampedRoot(c, i) { StampMeans(c, i + 1); }
  }

  lemma AnchorMeans(c: Call)
    ensures AnchoredBy(c, Anchor(c))
  {
    hide StampedRoot;
    if c.anchor == "" {
      StampMeans(c, 0);
      assert forall k | StampedRoot(c, k) :: 0 <= k by { StampedIsThere(c); }
    }
  }

  lemma StampedIsThere(c: Call)
    ensures forall k | StampedRoot(c, k) :: 0 <= k < |c.chain|
  {
  }

  lemma AnchorIsOnly(c: Call, a: string)
    requires AnchoredBy(c, a)
    ensures a == Anchor(c)
  {
    AnchorMeans(c);
    hide Anchor;
    if c.anchor == "" && exists k :: StampedRoot(c, k) {
      var k :| StampedRoot(c, k) && a == c.chain[k].forkStamp && forall j | 0 <= j < k :: !StampedRoot(c, j);
      var m :| StampedRoot(c, m) && Anchor(c) == c.chain[m].forkStamp && forall j | 0 <= j < m :: !StampedRoot(c, j);
      assert k == m;
    }
  }

  lemma AgentIsTold(calls: seq<Call>, c: Call, id: TraceId, parent: SpanId)
    requires WellFormed(calls) && c in calls && Talks(c) && c.thread != "" && Hung(calls, c, id, Some(parent))
    ensures SpanTold(calls, id, c.session, AgentSpanOf(c, parent))
  {
    hide Talks, Hung;
    assert AgentTold(calls, id, c.session, AgentSpanOf(c, parent));
  }

  lemma RejoinTold(calls: seq<Call>, c: Call, id: TraceId)
    requires c in calls && Talks(c) && c.thread != "" && OfSession(calls, id, c.session)
    ensures LinkTold(calls, Link(id, SubAgent(c.thread), id, ToolCall(Anchor(c)), Rejoin))
  {
    hide Talks, OfSession, Anchor, AnchoredBy;
    AnchorMeans(c);
    assert Says(calls, c.session, Link(id, SubAgent(c.thread), id, ToolCall(Anchor(c)), Rejoin));
  }

  lemma SpawnAgentTold(calls: seq<Call>, em: Em, c: Call)
    requires WellFormed(calls) && Valid(em) && Told(calls, em) && c in calls && Talks(c) && c.thread != ""
    requires Key(c.session, Anchor(c)) in em.tools && ThreadKey(c) !in em.agents
    ensures Told(calls, SpawnAgent(em, c, Key(c.session, Anchor(c))))
  {
    hide Valid, Grows, AddLink, AddAgent, Told, Talks, Anchor, AnchoredBy, SpanTold, LinkTold, Unsupported;
    var task := Key(c.session, Anchor(c));
    ToolPlace(em, task);
    var t := em.tools[task].turn;
    var id := em.turns[t].traceId;
    TurnIsOf(calls, em, t);
    var l := Link(id, SubAgent(c.thread), id, ToolCall(task.id), Rejoin);
    RejoinTold(calls, c, id);
    AddLinkTold(calls, em, t, l);
    var linked := AddLink(em, t, l);
    StaysTurn(em, linked, t);
    AnchorMeans(c);
    assert Hung(calls, c, id, Some(ToolCall(task.id)));
    AgentIsTold(calls, c, id, ToolCall(task.id));
    AddAgentTold(calls, linked, t, AgentSpanOf(c, ToolCall(task.id)), ThreadKey(c));
  }

  lemma RootedAgentTold(calls: seq<Call>, em: Em, c: Call)
    requires WellFormed(calls) && Valid(em) && Told(calls, em) && c in calls && Talks(c) && c.thread != ""
    requires ThreadKey(c) !in em.agents && Unsupported(calls, c)
    ensures Told(calls, RootedAgent(em, c))
  {
    hide Valid, Grows, EnsureTrace, AddAgent, Told, Talks, SpanTold, Unsupported;
    EnsureTraceTold(calls, em, c);
    var host := EnsureTrace(em, c);
    CurrentTurn(host, c.session);
    var t := host.cur[c.session];
    TurnIsOf(calls, host, t);
    assert Hung(calls, c, host.turns[t].traceId, Some(RootIdAt(host, t)));
    AgentIsTold(calls, c, host.turns[t].traceId, RootIdAt(host, t));
    AddAgentTold(calls, host, t, AgentSpanOf(c, RootIdAt(host, t)), ThreadKey(c));
  }

  lemma EnsureAgentTold(calls: seq<Call>, em: Em, c: Call)
    requires WellFormed(calls) && Valid(em) && Told(calls, em) && c in calls && Talks(c) && c.thread != ""
    requires WalkShape.Rootless(em, c) ==> Unsupported(calls, c)
    ensures Told(calls, EnsureAgent(em, c))
  {
    hide Valid, Grows, SpawnAgent, RootedAgent, Told, Talks, Anchor, Unsupported;
    if ThreadKey(c) !in em.agents {
      if Key(c.session, Anchor(c)) in em.tools {
        SpawnAgentTold(calls, em, c);
      } else {
        RootedAgentTold(calls, em, c);
      }
    }
  }

  lemma AgentHolds(calls: seq<Call>, em: Em, k: Key)
    requires WellFormed(calls) && Valid(em) && Told(calls, em) && k in em.agents
    ensures var r := em.agents[k];
            && r.turn < |em.turns| && r.span < |em.turns[r.turn].spans| && em.turns[r.turn].session == k.session
            && SpanAt(em, r).fixed.id == SubAgent(k.id) && SpanAt(em, r).fixed.kind == AgentSpan
            && AgentTold(calls, em.turns[r.turn].traceId, k.session, SpanAt(em, r))
  {
    hide Valid, AgentTold;
    AgentPlace(em, k);
    var r := em.agents[k];
    TurnTalks(calls, em, r.turn);
    assert SpanTold(calls, em.turns[r.turn].traceId, em.turns[r.turn].session, em.turns[r.turn].spans[r.span]);
  }

  lemma LongerAgent(calls: seq<Call>, id: TraceId, s: Session, sp: Span, c: Call)
    requires WellFormed(calls) && AgentTold(calls, id, s, sp) && sp.fixed.id == SubAgent(c.thread) && s == c.session
    requires c in calls && Talks(c) && c.at > sp.fixed.startedAt
    ensures SpanTold(calls, id, s, sp.(duration := c.at - sp.fixed.startedAt))
  {
    hide Talks, Hung;
    var d := c.at - sp.fixed.startedAt;
    var o :| o in calls && Talks(o) && o.thread != "" && o.session == s && Hung(calls, o, id, sp.fixed.parent)
             && sp.fixed == Fixed(SubAgent(o.thread), sp.fixed.parent, AgentSpan, None, o.thread, "", None, o.at, [])
             && sp.output == [] && !sp.failed && Lasts(calls, o, sp.duration);
    assert Lasts(calls, o, d);
    assert AgentTold(calls, id, s, sp.(duration := d));
  }

  lemma StretchAgentTold(calls: seq<Call>, em: Em, c: Call)
    requires WellFormed(calls) && Valid(em) && Told(calls, em) && c in calls && Talks(c) && ThreadKey(c) in em.agents
    ensures Told(calls, StretchAgent(em, c))
  {
    hide Valid, Grows, SetSpan, Told, Talks, AgentTold, SpanTold;
    AgentPlace(em, ThreadKey(c));
    AgentHolds(calls, em, ThreadKey(c));
    var r := em.agents[ThreadKey(c)];
    var agent := SpanAt(em, r);
    if c.at > agent.fixed.startedAt {
      LongerAgent(calls, em.turns[r.turn].traceId, c.session, agent, c);
      SetSpanTold(calls, em, r, agent.(duration := c.at - agent.fixed.startedAt));
    }
  }

  lemma ThreadCallTold(calls: seq<Call>, em: Em, c: Call)
    requires WellFormed(calls) && Valid(em) && Told(calls, em) && c in calls && Talks(c) && c.thread != "" && c.Valid()
    requires WalkShape.Rootless(em, c) ==> Unsupported(calls, c)
    ensures Told(calls, ThreadCall(em, c))
  {
    hide Valid, Grows, EnsureAgent, EmitConversation, StretchAgent, Told, Talks, Unsupported;
    EnsureAgentTold(calls, em, c);
    var hosted := EnsureAgent(em, c);
    AgentPlace(hosted, ThreadKey(c));
    var t := hosted.agents[ThreadKey(c)].turn;
    EmitConversationTold(calls, hosted, c, t);
    StretchAgentTold(calls, EmitConversation(hosted, c, t, SubAgent(c.thread)), c);
  }

  lemma CompactionLlmTold(calls: seq<Call>, c: Call, id: TraceId)
    requires WellFormed(calls) && c in calls && c.chain != [] && Summarises(c)
    ensures var sp := LlmSpanOf(c, RootAgent(id.opener), []); SpanTold(calls, id, c.session, sp) && BornEnd(sp) == SpanEnd(sp)
  {
    assert LlmTold(calls, id, c.session, LlmSpanOf(c, RootAgent(id.opener), []));
  }

  lemma ArmSeamTold(calls: seq<Call>, em: Em, c: Call, at: Ref)
    requires WellFormed(calls) && Valid(em) && Told(calls, em) && c in calls && c.chain != [] && Summarises(c)
    requires c.session in em.cur && Armed(em.turns, at, c.session) && SpanAt(em, at).fixed.id == LlmCall(Identity(c))
    ensures Told(calls, ArmSeam(em, c.session, at))
  {
    hide Valid, Grows, TurnTold, LinkTold;
    assert SeamTold(calls, em.turns, at, c.session);
    hide SeamTold;
  }

  lemma CompactionCallTold(calls: seq<Call>, em: Em, c: Call)
    requires WellFormed(calls) && Valid(em) && Told(calls, em) && c in calls && c.chain != [] && Summarises(c)
    ensures Told(calls, CompactionCall(em, c))
  {
    hide Valid, Grows, EnsureTrace, Told, LlmSpanOf, SpanTold;
    EnsureTraceTold(calls, em, c);
    var host := EnsureTrace(em, c);
    CurrentTurn(host, c.session);
    var t := host.cur[c.session];
    TurnIsOf(calls, host, t);
    var sp := LlmSpanOf(c, RootIdAt(host, t), []);
    CompactionLlmTold(calls, c, host.turns[t].traceId);
    AddSpanTold(calls, host, t, sp);
    LlmSpanShape(c, RootIdAt(host, t), []);
    ArmSeamTold(calls, AddSpan(host, t, sp), c, Ref(t, |host.turns[t].spans|));
  }

  lemma LlmSpanShape(c: Call, parent: SpanId, input: seq<ContentBlock>)
    requires c.chain != []
    ensures LlmSpanOf(c, parent, input).fixed.id == LlmCall(Identity(c))
  {
  }

  lemma ShadowLlmTold(calls: seq<Call>, c: Call, id: TraceId)
    requires WellFormed(calls) && c in calls && c.chain != [] && IsShadow(c)
    ensures var parent := if EmittedBySome(calls, Key(c.session, c.anchor)) then ToolCall(c.anchor) else RootAgent(id.opener);
            var sp := LlmSpanOf(c, parent, FreshInput(c));
            SpanTold(calls, id, c.session, sp) && BornEnd(sp) == SpanEnd(sp)
  {
    hide FreshInput, EmittedBySome;
    assert c.Valid();
    var parent := if EmittedBySome(calls, Key(c.session, c.anchor)) then ToolCall(c.anchor) else RootAgent(id.opener);
    assert LlmTold(calls, id, c.session, LlmSpanOf(c, parent, FreshInput(c)));
  }

  lemma VerdictTold(calls: seq<Call>, c: Call, id: TraceId)
    requires c in calls && c.chain != [] && IsShadow(c) && OfSession(calls, id, c.session)
    ensures LinkTold(calls, Link(id, LlmCall(Identity(c)), id, ToolCall(c.anchor), Verdict))
  {
    hide OfSession;
    assert Says(calls, c.session, Link(id, LlmCall(Identity(c)), id, ToolCall(c.anchor), Verdict));
  }

  lemma ShadowCallTold(calls: seq<Call>, em: Em, c: Call)
    requires WellFormed(calls) && Valid(em) && Told(calls, em) && c in calls && c.chain != [] && IsShadow(c) && c.Valid()
    requires Key(c.session, c.anchor) in em.tools <==> EmittedBySome(calls, Key(c.session, c.anchor))
    ensures Told(calls, ShadowCall(em, c))
  {
    hide Valid, Grows, EnsureTrace, AddSpan, AddLink, Told, LlmSpanOf, FreshInput, TraceAt, EmittedBySome, SpanTold, LinkTold;
    var key := Key(c.session, c.anchor);
    if key in em.tools {
      ToolPlace(em, key);
      var t := em.tools[key].turn;
      var id := em.turns[t].traceId;
      TurnIsOf(calls, em, t);
      ShadowLlmTold(calls, c, id);
      var sp := LlmSpanOf(c, ToolCall(key.id), FreshInput(c));
      AddSpanTold(calls, em, t, sp);
      VerdictTold(calls, c, id);
      AddLinkTold(calls, AddSpan(em, t, sp), t, Link(id, LlmCall(Identity(c)), id, ToolCall(key.id), Verdict));
    } else {
      EnsureTraceTold(calls, em, c);
      var host := EnsureTrace(em, c);
      CurrentTurn(host, c.session);
      var t := TraceAt(host, c);
      TurnIsOf(calls, host, t);
      var counted := CountOrphan(host);
      FewerSeams(calls, host, counted);
      ShadowLlmTold(calls, c, host.turns[t].traceId);
      AddSpanTold(calls, counted, t, LlmSpanOf(c, RootIdAt(host, t), FreshInput(c)));
    }
  }

  // ---------------------------------------------------------------- the phases

  lemma SpineStepTold(calls: seq<Call>, em: Em, c: Call)
    requires WellFormed(calls) && Valid(em) && Told(calls, em) && c in calls && c.Valid()
    ensures Told(calls, WalkShape.SpineStep(em, c))
  {
    hide Valid, MainCall, CompactionCall, Told;
    if c.chain != [] && IsSpine(c) {
      if c.kind == Main { MainCallTold(calls, em, c); } else { CompactionCallTold(calls, em, c); }
    }
  }

  lemma {:induction false} SpineTold(calls: seq<Call>, n: nat)
    requires WellFormed(calls) && n <= |calls|
    ensures Told(calls, Spine(calls, n))
  {
    hide Valid, Spine, Told, WalkShape.SpineStep;
    if n == 0 {
      SpanPrompts.NothingWalked(calls);
      NothingTold(calls);
    } else {
      SpineTold(calls, n - 1);
      WalkShape.SpineUnfolds(calls, n - 1);
      SpineStepTold(calls, Spine(calls, n - 1), calls[n - 1]);
    }
  }

  lemma NothingTold(calls: seq<Call>)
    requires WellFormed(calls)
    ensures Told(calls, EMPTY)
  {
  }

  /** The pending calls are thread calls of the list. */
  ghost predicate Pending(calls: seq<Call>, pending: seq<Call>) {
    Emittable(pending) && forall c | c in pending :: c in calls && Talks(c) && c.thread != ""
  }

  lemma {:induction false} PassTold(calls: seq<Call>, em: Em, pending: seq<Call>, i: nat, blocked: seq<Call>)
    requires WellFormed(calls) && Valid(em) && Told(calls, em) && i <= |pending| && Pending(calls, pending) && Pending(calls, blocked)
    ensures Told(calls, Pass(em, pending, i, blocked).0) && Pending(calls, Pass(em, pending, i, blocked).1)
    decreases |pending| - i
  {
    hide Valid, Grows, ThreadCall, Told, Talks, Anchor;
    if i < |pending| {
      var c := pending[i];
      assert c in pending;
      if Ready(em, c) {
        ThreadCallTold(calls, em, c);
        PassTold(calls, ThreadCall(em, c), pending, i + 1, blocked);
      } else {
        PassTold(calls, em, pending, i + 1, blocked + [c]);
      }
    }
  }

  lemma {:induction false} FixpointTold(calls: seq<Call>, em: Em, pending: seq<Call>)
    requires WellFormed(calls) && Valid(em) && Told(calls, em) && Pending(calls, pending)
    ensures Told(calls, Fixpoint(em, pending).0) && Pending(calls, Fixpoint(em, pending).1)
    decreases |pending|
  {
    hide Valid, Grows, Pass, Told, Pending;
    if pending != [] {
      assert Emittable(pending) && Pending(calls, []) by { PendingIsEmittable(calls, pending); }
      PassTold(calls, em, pending, 0, []);
      var p := Pass(em, pending, 0, []);
      if |p.1| != |pending| { FixpointTold(calls, p.0, p.1); }
    }
  }

  lemma PendingIsEmittable(calls: seq<Call>, pending: seq<Call>)
    requires Pending(calls, pending)
    ensures Emittable(pending) && Pending(calls, [])
  {
  }

  lemma {:induction false} DegradeTold(calls: seq<Call>, em: Em, pending: seq<Call>, i: nat)
    requires WellFormed(calls) && Valid(em) && Told(calls, em) && Pending(calls, pending) && i <= |pending|
    requires forall c | c in pending :: Unsupported(calls, c)
    ensures Told(calls, Degrade(em, pending, i))
    decreases |pending| - i
  {
    hide Valid, Grows, ThreadCall, Told, Talks, Unsupported;
    if i < |pending| {
      assert pending[i] in pending;
      ThreadCallTold(calls, em, pending[i]);
      DegradeTold(calls, ThreadCall(em, pending[i]), pending, i + 1);
    }
  }

  /** What the fixed point leaves over has no support from what it placed. */
  lemma LeftOverUnsupported(calls: seq<Call>, c: Call)
    requires WellFormed(calls) && c in Fixpoint(Spine(calls, |calls|), Only(calls, IsThread)).1
    ensures Unsupported(calls, c)
  {
    hide Valid, Grows, ThreadCall, Ready, ThreadFixpoint.Supported, Pass, ThreadFixpoint.Order, Fixpoint, Degrade, Spine,
         ThreadFixpoint.AnchorEmitted;
    var spine, threads := Spine(calls, |calls|), Only(calls, IsThread);
    ThreadFixpoint.ReachedAtStart(spine);
    ThreadFixpoint.FixpointKeeps(spine, threads, ThreadFixpoint.Members(threads), {}, spine, threads);
    var placed := ThreadFixpoint.Members(ThreadFixpoint.Order(spine, threads));
    assert {} + placed == placed;
    ThreadFixpoint.ReadyIsSupported(spine, placed, Fixpoint(spine, threads).0, c);
  }

  lemma {:induction false} ShadowsTold(calls: seq<Call>, em: Em, shadows: seq<Call>, i: nat)
    requires WellFormed(calls) && Valid(em) && Told(calls, em) && Emittable(shadows) && i <= |shadows|
    requires forall c | c in shadows :: c in calls && IsShadow(c)
    requires forall k :: k in em.tools <==> EmittedBySome(calls, k)
    ensures Told(calls, Shadows(em, shadows, i))
    decreases |shadows| - i
  {
    hide Valid, Grows, ShadowCall, Told, EmittedBySome;
    if i < |shadows| {
      assert shadows[i] in shadows;
      ShadowCallTold(calls, em, shadows[i]);
      ShadowsTold(calls, ShadowCall(em, shadows[i]), shadows, i + 1);
    }
  }

  lemma ThreadsArePending(calls: seq<Call>)
    requires WellFormed(calls)
    ensures Pending(calls, Only(calls, IsThread))
  {
  }

  /** Every span and every link of the walk is accounted for by the calls: which call it is
      of, where it hangs, what it holds, and between what it runs. */
  lemma WalkIsTold(calls: seq<Call>)
    requires WellFormed(calls)
    ensures Told(calls, Walk(calls))
  {
    hide Valid, Grows, Spine, Fixpoint, Degrade, Shadows, Only, Told, EmittedBySome, Unsupported, Pending;
    var spine, threads, shadows := Spine(calls, |calls|), Only(calls, IsThread), Only(calls, IsShadow);
    SpineTold(calls, |calls|);
    ThreadsArePending(calls);
    PendingIsEmittable(calls, threads);
    FixpointTold(calls, spine, threads);
    var f := Fixpoint(spine, threads);
    forall c | c in f.1 ensures Unsupported(calls, c) { LeftOverUnsupported(calls, c); }
    DegradeTold(calls, f.0, f.1, 0);
    var threaded := Degrade(f.0, f.1, 0);
    ShadowsTools(threaded, shadows, 0);
    forall k ensures k in threaded.tools <==> EmittedBySome(calls, k) { WalkTools(calls, k); }
    ShadowsTold(calls, threaded, shadows, 0);
  }

  // ---------------------------------------------------------------- windows of finished traces

  lemma LastsAtLeast(calls: seq<Call>, id: TraceId, s: Session, sp: Span)
    requires WellFormed(calls) && SpanTold(calls, id, s, sp)
    ensures BornEnd(sp) <= SpanEnd(sp) && (sp.fixed.id.RootAgent? ==> SpanEnd(sp) == sp.fixed.startedAt)
  {
    hide Hung, Talks, EmitsBlock, Delivers;
  }

  /** A finished trace starts with its root and ends with the last of its spans, or where it
      started when none ends later. */
  lemma FinishedWindow(calls: seq<Call>, t: nat)
    requires WellFormed(calls) && t < |Walk(calls).turns| && Walk(calls).turns[t].spans != []
    ensures var f := SpanFinish.FinishTurn(Walk(calls).turns[t]).turn;
            && f.startedAt == f.spans[0].fixed.startedAt <= f.endedAt && f.spans[0].duration == f.endedAt - f.startedAt
            && (forall i | 0 < i < |f.spans| :: SpanEnd(f.spans[i]) <= f.endedAt)
            && (f.endedAt == f.startedAt || exists i :: 0 < i < |f.spans| && SpanEnd(f.spans[i]) == f.endedAt)
  {
    hide Walk, SpanTold, LinkTold, OfSession, BornEnd, SpanEnd, SpanFinish.FinishTurn, SpanFinish.RollupOf;
    WalkIsTold(calls);
    var turn := Walk(calls).turns[t];
    TurnTalks(calls, Walk(calls), t);
    WindowReached(calls, turn);
  }

  lemma WindowReached(calls: seq<Call>, turn: Turn)
    requires WellFormed(calls) && TurnTold(calls, turn)
    ensures var f := SpanFinish.FinishTurn(turn).turn;
            && f.spans != [] && f.startedAt == f.spans[0].fixed.startedAt <= f.endedAt && f.spans[0].duration == f.endedAt - f.startedAt
            && (forall i | 0 < i < |f.spans| :: SpanEnd(f.spans[i]) <= f.endedAt)
            && (f.endedAt == f.startedAt || exists i :: 0 < i < |f.spans| && SpanEnd(f.spans[i]) == f.endedAt)
  {
    hide LinkTold, OfSession, SpanFinish.FinishTurn, SpanFinish.RollupOf, SpanTold;
    assert turn.spans[0].fixed.kind == AgentSpan by { RootIsAgent(calls, turn); }
    SpanFinish.FinishTurnMeans(turn, Prompt);
    var f := SpanFinish.FinishTurn(turn).turn;
    forall k | 0 <= k < |turn.spans|
      ensures BornEnd(turn.spans[k]) <= SpanEnd(turn.spans[k]) && (k == 0 ==> SpanEnd(turn.spans[k]) == turn.startedAt)
    {
      LastsAtLeast(calls, turn.traceId, turn.session, turn.spans[k]);
    }
    if f.endedAt != f.startedAt {
      var k :| 0 <= k < |turn.spans| && SpanEnd(turn.spans[k]) >= f.endedAt;
      assert turn.spans[k] in multiset(turn.spans[1..]);
      assert turn.spans[k] in multiset(f.spans[1..]);
      var i :| 0 <= i < |f.spans[1..]| && f.spans[1..][i] == turn.spans[k];
      assert f.spans[i + 1] == turn.spans[k];
    }
  }

  lemma RootIsAgent(calls: seq<Call>, turn: Turn)
    requires WellFormed(calls) && TurnTold(calls, turn)
    ensures turn.spans[0].fixed.kind == AgentSpan
  {
    assert SpanTold(calls, turn.traceId, turn.session, turn.spans[0]);
  }
}
