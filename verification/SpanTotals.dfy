/** Conservation: whatever the phases reorder, every call with a chain becomes exactly one
    llm span, and every distinct emitted tool_use id exactly one tool span. */
module SpanTotals {
  import opened Llm
  import opened DeriveModel
  import opened SpanModel
  import ThreadFixpoint

  /** What finish adds up, plus the two span counts behind it. */
  datatype Measure =
    | LlmSpans
    | LlmSpansOf(call: CallId)
    | LlmShowing(call: CallId, input: seq<ContentBlock>)
    | ToolSpans
    | Prompt
    | Completion
    | CacheRead
    | CacheCreation
    | MainPrompt
    | MainCompletion
    | ModelCalls(model: string)
    | ModelPrompt(model: string)
    | ModelCompletion(model: string)

  function Spent(m: Measure, kind: Option<Kind>, model: string, u: Usage): int {
    match m
    case Prompt => u.promptTokens
    case Completion => u.completionTokens
    case CacheRead => u.cacheReadTokens
    case CacheCreation => u.cacheCreationTokens
    case MainPrompt => if kind == Some(Main) then u.promptTokens else 0
    case MainCompletion => if kind == Some(Main) then u.completionTokens else 0
    case ModelCalls(x) => if model == x && x != "" then 1 else 0
    case ModelPrompt(x) => if model == x && x != "" then u.promptTokens else 0
    case ModelCompletion(x) => if model == x && x != "" then u.completionTokens else 0
    case _ => 0
  }

  /** What one span contributes. */
  function SpanWeight(m: Measure, f: Fixed): int {
    match m
    case LlmSpans => if f.kind == LlmSpan then 1 else 0
    case LlmSpansOf(call) => if f.kind == LlmSpan && f.id == LlmCall(call) then 1 else 0
    case LlmShowing(call, input) => if f.kind == LlmSpan && f.id == LlmCall(call) && f.input == input then 1 else 0
    case ToolSpans => if f.kind == ToolSpan then 1 else 0
    case _ => if f.kind == LlmSpan && f.usage.Some? then Spent(m, f.callKind, f.model, f.usage.value) else 0
  }

  /** A compaction of the spine: its llm span shows no input. */
  predicate Summarises(c: Call) { c.kind == Compaction && c.thread == "" }

  /** The input a call's llm span is to show. */
  function InputOf(c: Call): seq<ContentBlock>
    requires c.chain != []
  {
    if Summarises(c) || !c.Valid() then [] else FreshInput(c)
  }

  /** What one call contributes, read off the capture alone. */
  function CallWeight(m: Measure, c: Call): int
    requires c.chain != []
  {
    var resp := c.Response();
    match m
    case LlmSpans => 1
    case LlmSpansOf(call) => if Identity(c) == call then 1 else 0
    case LlmShowing(call, input) => if Identity(c) == call && InputOf(c) == input then 1 else 0
    case ToolSpans => 0
    case _ => if resp.usage.Some? then Spent(m, Some(CallKindOf(c)), resp.bucket.model, resp.usage.value) else 0
  }

  function SumSpans(spans: seq<Span>, m: Measure): int {
    if spans == [] then 0
    else SumSpans(spans[..|spans| - 1], m) + SpanWeight(m, spans[|spans| - 1].fixed)
  }

  /** Summed over all traces of one session. */
  function SessionTotal(turns: seq<Turn>, s: Session, m: Measure): int {
    if turns == [] then 0
    else
      var last := turns[|turns| - 1];
      SessionTotal(turns[..|turns| - 1], s, m) + (if last.session == s then SumSpans(last.spans, m) else 0)
  }

  /** Summed over a session's calls that carry a chain. */
  function SumCalls(calls: seq<Call>, s: Session, m: Measure): int {
    if calls == [] then 0
    else
      var c := calls[|calls| - 1];
      SumCalls(calls[..|calls| - 1], s, m) + Share(c, s, m)
  }

  function Share(c: Call, s: Session, m: Measure): int {
    if c.chain != [] && c.session == s then CallWeight(m, c) else 0
  }

  function ToolsOf(tools: map<Key, Ref>, s: Session): set<Key> {
    set k | k in tools && k.session == s
  }

  /** The quantity each step moves by exactly its call's share: the total, with tool spans
      measured against the registry. */
  ghost function Balance(em: Em, s: Session, m: Measure): int {
    SessionTotal(em.turns, s, m) - (if m.ToolSpans? then |ToolsOf(em.tools, s)| else 0)
  }

  // ---------------------------------------------------------------- sums

  lemma {:induction false} SumSameFixed(x: seq<Span>, y: seq<Span>, m: Measure)
    requires |x| == |y| && forall i | 0 <= i < |x| :: x[i].fixed == y[i].fixed
    ensures SumSpans(x, m) == SumSpans(y, m)
  {
    if x != [] {
      SumSameFixed(x[..|x| - 1], y[..|y| - 1], m);
    }
  }

  lemma {:induction false} TotalReplaced(turns: seq<Turn>, t: nat, turn: Turn, s: Session, m: Measure)
    requires t < |turns| && turn.session == turns[t].session
    ensures SessionTotal(turns[t := turn], s, m)
         == SessionTotal(turns, s, m)
            + (if turn.session == s then SumSpans(turn.spans, m) - SumSpans(turns[t].spans, m) else 0)
  {
    var n := |turns| - 1;
    var next := turns[t := turn];
    if t == n {
      assert next[..n] == turns[..n];
    } else {
      assert next[..n] == turns[..n][t := turn];
      TotalReplaced(turns[..n], t, turn, s, m);
    }
  }

  lemma AddSpanTotal(em: Em, t: nat, sp: Span, s: Session, m: Measure)
    requires Valid(em) && t < |em.turns|
    ensures Balance(AddSpan(em, t, sp), s, m)
         == Balance(em, s, m) + (if em.turns[t].session == s then SpanWeight(m, sp.fixed) else 0)
  {
    hide Valid, Grows, TurnsGrow, SpanWeight;
    var turn := em.turns[t].(spans := em.turns[t].spans + [sp], endedAt := Max(em.turns[t].endedAt, SpanEnd(sp)));
    assert turn.spans[..|turn.spans| - 1] == em.turns[t].spans;
    TotalReplaced(em.turns, t, turn, s, m);
  }

  lemma AddLinkTotal(em: Em, host: nat, l: Link, s: Session, m: Measure)
    requires Valid(em) && host < |em.turns|
    ensures Balance(AddLink(em, host, l), s, m) == Balance(em, s, m)
  {
    hide Valid, Grows, TurnsGrow;
    TotalReplaced(em.turns, host, em.turns[host].(links := em.turns[host].links + [l]), s, m);
  }

  lemma SetSpanTotal(em: Em, r: Ref, sp: Span, s: Session, m: Measure)
    requires Valid(em)
    requires r.turn < |em.turns| && r.span < |em.turns[r.turn].spans|
    requires SpanGrows(SpanAt(em, r), sp)
    ensures Balance(SetSpan(em, r, sp), s, m) == Balance(em, s, m)
  {
    hide Valid, Grows, TurnsGrow;
    var turn := em.turns[r.turn].(spans := em.turns[r.turn].spans[r.span := sp]);
    SumSameFixed(em.turns[r.turn].spans, turn.spans, m);
    TotalReplaced(em.turns, r.turn, turn, s, m);
  }

  lemma AddToolTotal(em: Em, t: nat, sp: Span, k: Key, s: Session, m: Measure)
    requires Valid(em) && TurnOf(em.turns, t, k.session) && k !in em.tools
    requires sp.fixed.kind == ToolSpan && sp.fixed.id == ToolCall(k.id)
    ensures Balance(AddTool(em, t, sp, k), s, m) == Balance(em, s, m)
  {
    hide Valid, Grows, TurnsGrow;
    AddSpanTotal(em, t, sp, s, m);
    var r := AddTool(em, t, sp, k);
    assert ToolsOf(r.tools, s) == ToolsOf(em.tools, s) + (if k.session == s then {k} else {});
  }

  lemma AddAgentTotal(em: Em, t: nat, sp: Span, k: Key, s: Session, m: Measure)
    requires Valid(em) && TurnOf(em.turns, t, k.session) && k !in em.agents
    requires sp.fixed.kind == AgentSpan && sp.fixed.id == SubAgent(k.id)
    ensures Balance(AddAgent(em, t, sp, k), s, m) == Balance(em, s, m)
  {
    hide Valid, Grows, TurnsGrow;
    AddSpanTotal(em, t, sp, s, m);
  }

  lemma MarkTotal(em: Em, t: nat, why: Synthetic, s: Session, m: Measure)
    requires Valid(em) && t < |em.turns|
    ensures Balance(MarkSynthetic(em, t, why), s, m) == Balance(em, s, m)
  {
    hide Valid, Grows, TurnsGrow;
    TotalReplaced(em.turns, t, em.turns[t].(synthetic := why), s, m);
  }

  lemma OpenTraceTotal(em: Em, c: Call, prompt: Option<Hash>, s: Session, m: Measure)
    requires Valid(em) && c.chain != []
    ensures Balance(OpenTrace(em, c, prompt), s, m) == Balance(em, s, m)
  {
    hide Valid, Grows, TurnsGrow, AddLink, MarkSynthetic, SeamLink;
    var turn := TurnOpenedBy(c, prompt);
    var pushed := PushTurn(em, turn);
    assert pushed.turns[..|em.turns|] == em.turns;
    assert turn.spans[..0] == [];
    assert SumSpans(turn.spans, m) == 0;
    assert Balance(pushed, s, m) == Balance(em, s, m);
    if c.session in em.seam {
      MarkTotal(pushed, |em.turns|, PostCompaction, s, m);
      AddLinkTotal(TakeSeam(pushed, c.session, |em.turns|), |em.turns|, SeamLink(pushed, c), s, m);
    }
  }

  lemma EnsureTraceTotal(em: Em, c: Call, s: Session, m: Measure)
    requires Valid(em) && c.chain != []
    ensures Balance(EnsureTrace(em, c), s, m) == Balance(em, s, m)
  {
    hide Valid, Grows, TurnsGrow, OpenTrace, MarkSynthetic, Balance;
    if c.session !in em.cur {
      OpenTraceTotal(em, c, None, s, m);
      MarkTotal(OpenTrace(em, c, None), |em.turns|, ShadowOpener, s, m);
    }
  }

  // ---------------------------------------------------------------- one conversation

  lemma {:induction false} ScanResultsTotal(em: Em, u: Session, blocks: seq<ContentBlock>, at: int, j: nat,
                                            feeds: seq<Key>, s: Session, m: Measure)
    requires Valid(em) && j <= |blocks|
    requires forall k | k in feeds :: k in em.tools && k.session == u
    ensures Balance(ScanResults(em, u, blocks, at, j, feeds).0, s, m) == Balance(em, s, m)
    decreases |blocks| - j
  {
    hide Valid, Grows, TurnsGrow, Fill, Balance;
    if j < |blocks| {
      if blocks[j].kind != ToolResult {
        ScanResultsTotal(em, u, blocks, at, j + 1, feeds, s, m);
      } else {
        var f := Fill(em, u, blocks[j], at);
        FillTotal(em, u, blocks[j], at, s, m);
        var more := if f.1.Some? then feeds + [f.1.value] else feeds;
        FeedsStay(em, f.0, more, u);
        ScanResultsTotal(f.0, u, blocks, at, j + 1, more, s, m);
      }
    }
  }

  lemma FeedsStay(a: Em, b: Em, feeds: seq<Key>, u: Session)
    requires Grows(a, b) && forall k | k in feeds :: k in a.tools && k.session == u
    ensures forall k | k in feeds :: k in b.tools && k.session == u
  {
  }

  lemma FillTotal(em: Em, u: Session, b: ContentBlock, at: int, s: Session, m: Measure)
    requires Valid(em)
    ensures Balance(Fill(em, u, b, at).0, s, m) == Balance(em, s, m)
  {
    hide Grows, TurnsGrow, SetSpan, Balance;
    var k := Key(u, if b.toolResultId != "" then b.toolResultId else b.toolUseId);
    if k in em.tools && SpanAt(em, em.tools[k]).output == [] {
      var ts := SpanAt(em, em.tools[k]);
      var d := at - ts.fixed.startedAt;
      SetSpanTotal(em, em.tools[k],
                   ts.(output := [b], failed := ts.failed || b.isError, duration := if d > 0 then d else ts.duration), s, m);
    }
  }

  lemma ScanNodeTotal(em: Em, c: Call, t: nat, parent: SpanId, i: nat, feeds: seq<Key>, s: Session, m: Measure)
    requires Valid(em) && c.Valid() && i < |c.chain| && t < |em.turns|
    requires forall k | k in feeds :: k in em.tools && k.session == c.session
    ensures Balance(ScanNode(em, c, t, parent, i, feeds).0, s, m) == Balance(em, s, m)
  {
    hide Valid, Grows, TurnsGrow, AddSpan, ScanResults, Balance, Boundary;
    var n := c.chain[i];
    AddSpanTotal(em, t, EventSpanOf(c, parent, n.kind, n), s, m);
    AddSpanTotal(em, t, EventSpanOf(c, parent, Injected("system-insert"), n), s, m);
    ScanResultsTotal(em, c.session, n.bucket.content, n.capturedAt, 0, feeds, s, m);
  }

  lemma {:induction false} ScanRequestTotal(em: Em, c: Call, t: nat, parent: SpanId, i: nat, feeds: seq<Key>,
                                            s: Session, m: Measure)
    requires Valid(em) && c.Valid() && i < |c.chain| && t < |em.turns|
    requires forall k | k in feeds :: k in em.tools && k.session == c.session
    ensures Balance(ScanRequest(em, c, t, parent, i, feeds).0, s, m) == Balance(em, s, m)
    decreases |c.chain| - i
  {
    hide Valid, Grows, TurnsGrow, ScanNode, Balance;
    if i < |c.chain| - 1 {
      ScanNodeTotal(em, c, t, parent, i, feeds, s, m);
      var n := ScanNode(em, c, t, parent, i, feeds);
      ScanRequestTotal(n.0, c, t, parent, i + 1, n.1, s, m);
    }
  }

  lemma {:induction false} LinkFeedsTotal(em: Em, feeds: seq<Key>, t: nat, span: SpanId, i: nat, s: Session, m: Measure)
    requires Valid(em) && t < |em.turns| && i <= |feeds|
    requires forall k | k in feeds :: k in em.tools
    ensures Balance(LinkFeeds(em, feeds, t, span, i), s, m) == Balance(em, s, m)
    decreases |feeds| - i
  {
    hide Valid, Grows, TurnsGrow, AddLink, FeedLink, Balance;
    if i < |feeds| {
      var l := FeedLink(em, feeds[i], t, span);
      AddLinkTotal(em, t, l, s, m);
      LinkFeedsTotal(AddLink(em, t, l), feeds, t, span, i + 1, s, m);
    }
  }

  lemma EmitToolTotal(em: Em, c: Call, t: nat, parent: SpanId, b: ContentBlock, s: Session, m: Measure)
    requires Valid(em) && t < |em.turns| && em.turns[t].session == c.session && c.chain != []
    ensures Balance(EmitTool(em, c, t, parent, b), s, m) == Balance(em, s, m)
  {
    hide Valid, Grows, TurnsGrow, AddLink, AddTool, Balance;
    var k := Key(c.session, b.toolUseId);
    var id := em.turns[t].traceId;
    var llm := LlmCall(Identity(c));
    if Emission(b) {
      if k in em.tools {
        ToolPlace(em, k);
        AddLinkTotal(em, t, Link(id, llm, em.turns[em.tools[k].turn].traceId, ToolCall(k.id), Emits), s, m);
      } else {
        AddToolTotal(em, t, ToolSpanOf(c, parent, b), k, s, m);
        AddLinkTotal(AddTool(em, t, ToolSpanOf(c, parent, b), k), t, Link(id, llm, id, ToolCall(k.id), Emits), s, m);
      }
    }
  }

  lemma {:induction false} EmitToolsTotal(em: Em, c: Call, t: nat, parent: SpanId, blocks: seq<ContentBlock>, j: nat,
                                          s: Session, m: Measure)
    requires Valid(em) && t < |em.turns| && em.turns[t].session == c.session && c.chain != [] && j <= |blocks|
    ensures Balance(EmitTools(em, c, t, parent, blocks, j), s, m) == Balance(em, s, m)
    decreases |blocks| - j
  {
    hide Valid, Grows, TurnsGrow, EmitTool, Balance;
    if j < |blocks| {
      EmitToolTotal(em, c, t, parent, blocks[j], s, m);
      var e := EmitTool(em, c, t, parent, blocks[j]);
      TurnStays(em, e, t);
      EmitToolsTotal(e, c, t, parent, blocks, j + 1, s, m);
    }
  }

  lemma LlmWeight(c: Call, parent: SpanId, input: seq<ContentBlock>, m: Measure)
    requires c.chain != [] && input == InputOf(c)
    ensures SpanWeight(m, LlmSpanOf(c, parent, input).fixed) == CallWeight(m, c)
  {
  }

  lemma EmitConversationTotal(em: Em, c: Call, t: nat, parent: SpanId, s: Session, m: Measure)
    requires Valid(em) && c.Valid() && c.chain != [] && !Summarises(c)
    requires t < |em.turns| && em.turns[t].session == c.session
    ensures Balance(EmitConversation(em, c, t, parent), s, m) == Balance(em, s, m) + Share(c, s, m)
  {
    hide Valid, Grows, TurnsGrow, ScanRequest, LlmSpanOf, AddSpan, LinkFeeds, EmitTools, FreshInput, Balance, CallWeight, SpanWeight;
    var scan := ScanRequest(em, c, t, parent, 0, []);
    ScanRequestTotal(em, c, t, parent, 0, [], s, m);
    TurnStays(em, scan.0, t);
    var withLlm := AddSpan(scan.0, t, LlmSpanOf(c, parent, FreshInput(c)));
    AddSpanTotal(scan.0, t, LlmSpanOf(c, parent, FreshInput(c)), s, m);
    LlmWeight(c, parent, FreshInput(c), m);
    var fed := LinkFeeds(withLlm, scan.1, t, LlmCall(Identity(c)), 0);
    LinkFeedsTotal(withLlm, scan.1, t, LlmCall(Identity(c)), 0, s, m);
    TurnStays(scan.0, withLlm, t);
    TurnStays(withLlm, fed, t);
    EmitToolsTotal(fed, c, t, parent, c.Response().bucket.content, 0, s, m);
  }

  // ---------------------------------------------------------------- the four call shapes

  lemma MainCallTotal(em: Em, c: Call, s: Session, m: Measure)
    requires Valid(em) && c.Valid() && c.chain != [] && !Summarises(c)
    ensures Balance(MainCall(em, c), s, m) == Balance(em, s, m) + Share(c, s, m)
  {
    hide Valid, Grows, TurnsGrow, OpenTrace, EmitConversation, Balance, Share, SpanModel.Prompt;
    OpenTraceTotal(em, c, SpanModel.Prompt(c), s, m);
    var started :=
      if c.session !in em.cur || SpanModel.Prompt(c).Some? then OpenTrace(em, c, SpanModel.Prompt(c)) else em;
    CurrentTurn(started, c.session);
    var t := started.cur[c.session];
    EmitConversationTotal(started, c, t, RootIdAt(started, t), s, m);
  }

  lemma EnsureAgentTotal(em: Em, c: Call, s: Session, m: Measure)
    requires Valid(em) && c.chain != []
    ensures Balance(EnsureAgent(em, c), s, m) == Balance(em, s, m)
  {
    hide Valid, Grows, TurnsGrow, AddLink, AddAgent, EnsureTrace, Balance;
    var task := Key(c.session, Anchor(c));
    if ThreadKey(c) in em.agents {
    } else if task in em.tools {
      ToolPlace(em, task);
      var t := em.tools[task].turn;
      var id := em.turns[t].traceId;
      var l := Link(id, SubAgent(c.thread), id, ToolCall(task.id), Rejoin);
      AddLinkTotal(em, t, l, s, m);
      var linked := AddLink(em, t, l);
      TurnStays(em, linked, t);
      AddAgentTotal(linked, t, AgentSpanOf(c, ToolCall(task.id)), ThreadKey(c), s, m);
    } else {
      EnsureTraceTotal(em, c, s, m);
      var host := EnsureTrace(em, c);
      CurrentTurn(host, c.session);
      var t := host.cur[c.session];
      AddAgentTotal(host, t, AgentSpanOf(c, RootIdAt(host, t)), ThreadKey(c), s, m);
    }
  }

  lemma ThreadCallTotal(em: Em, c: Call, s: Session, m: Measure)
    requires Valid(em) && c.Valid() && c.chain != [] && !Summarises(c)
    ensures Balance(ThreadCall(em, c), s, m) == Balance(em, s, m) + Share(c, s, m)
  {
    hide Valid, Grows, TurnsGrow, EnsureAgent, EmitConversation, SetSpan, Balance, Share;
    EnsureAgentTotal(em, c, s, m);
    var hosted := EnsureAgent(em, c);
    AgentPlace(hosted, ThreadKey(c));
    var spoken := EmitConversation(hosted, c, hosted.agents[ThreadKey(c)].turn, SubAgent(c.thread));
    EmitConversationTotal(hosted, c, hosted.agents[ThreadKey(c)].turn, SubAgent(c.thread), s, m);
    AgentPlace(spoken, ThreadKey(c));
    var agent := SpanAt(spoken, spoken.agents[ThreadKey(c)]);
    if c.at > agent.fixed.startedAt {
      SetSpanTotal(spoken, spoken.agents[ThreadKey(c)], agent.(duration := c.at - agent.fixed.startedAt), s, m);
    }
  }

  lemma CompactionCallTotal(em: Em, c: Call, s: Session, m: Measure)
    requires Valid(em) && c.chain != [] && Summarises(c)
    ensures Balance(CompactionCall(em, c), s, m) == Balance(em, s, m) + Share(c, s, m)
  {
    hide Valid, Grows, TurnsGrow, EnsureTrace, AddSpan, LlmSpanOf, CallWeight, SpanWeight;
    EnsureTraceTotal(em, c, s, m);
    var host := EnsureTrace(em, c);
    CurrentTurn(host, c.session);
    var t := host.cur[c.session];
    var sp := LlmSpanOf(c, RootIdAt(host, t), []);
    AddSpanTotal(host, t, sp, s, m);
    LlmWeight(c, RootIdAt(host, t), [], m);
  }

  lemma ShadowCallTotal(em: Em, c: Call, s: Session, m: Measure)
    requires Valid(em) && c.Valid() && c.chain != [] && !Summarises(c)
    ensures Balance(ShadowCall(em, c), s, m) == Balance(em, s, m) + Share(c, s, m)
  {
    hide Valid, Grows, TurnsGrow, EnsureTrace, AddSpan, AddLink, LlmSpanOf, FreshInput, CallWeight, SpanWeight, TraceAt;
    var key := Key(c.session, c.anchor);
    if key in em.tools {
      ToolPlace(em, key);
      var t := em.tools[key].turn;
      var id := em.turns[t].traceId;
      var sp := LlmSpanOf(c, ToolCall(key.id), FreshInput(c));
      AddSpanTotal(em, t, sp, s, m);
      LlmWeight(c, ToolCall(key.id), FreshInput(c), m);
      AddLinkTotal(AddSpan(em, t, sp), t, Link(id, LlmCall(Identity(c)), id, ToolCall(key.id), Verdict), s, m);
    } else {
      EnsureTraceTotal(em, c, s, m);
      var host := EnsureTrace(em, c);
      CurrentTurn(host, c.session);
      var t := TraceAt(host, c);
      var counted := CountOrphan(host);
      AddSpanTotal(counted, t, LlmSpanOf(c, RootIdAt(host, t), FreshInput(c)), s, m);
      LlmWeight(c, RootIdAt(host, t), FreshInput(c), m);
    }
  }

  // ---------------------------------------------------------------- the phases

  lemma {:induction false} SumOne(calls: seq<Call>, c: Call, s: Session, m: Measure)
    ensures SumCalls(calls + [c], s, m) == SumCalls(calls, s, m) + Share(c, s, m)
  {
    hide Share;
    assert (calls + [c])[..|calls|] == calls;
  }

  lemma {:induction false} SumConcat(a: seq<Call>, b: seq<Call>, s: Session, m: Measure)
    ensures SumCalls(a + b, s, m) == SumCalls(a, s, m) + SumCalls(b, s, m)
  {
    hide Share;
    if b == [] {
      assert a + b == a;
    } else {
      var n := |b| - 1;
      assert (a + b)[..|a| + n] == a + b[..n];
      SumConcat(a, b[..n], s, m);
    }
  }

  lemma DropSame<T>(a: seq<T>, b: seq<T>, i: nat)
    requires a != [] && i < |b| && b[i] == a[|a| - 1] && multiset(a) == multiset(b)
    ensures multiset(a[..|a| - 1]) == multiset(b[..i] + b[i + 1..])
  {
    var n := |a| - 1;
    assert a == a[..n] + [a[n]];
    assert b == b[..i] + [b[i]] + b[i + 1..];
    assert multiset(b) == multiset(b[..i]) + multiset{b[i]} + multiset(b[i + 1..]);
    assert multiset(a[..n]) == multiset(a) - multiset{a[n]};
  }

  lemma SumSplit(b: seq<Call>, i: nat, s: Session, m: Measure)
    requires i < |b|
    ensures SumCalls(b, s, m) == SumCalls(b[..i] + b[i + 1..], s, m) + Share(b[i], s, m)
  {
    hide Share;
    assert b == (b[..i] + [b[i]]) + b[i + 1..];
    SumConcat(b[..i] + [b[i]], b[i + 1..], s, m);
    SumOne(b[..i], b[i], s, m);
    SumConcat(b[..i], b[i + 1..], s, m);
  }

  /** A sum over calls does not depend on their order. */
  lemma {:induction false} SumReordered(a: seq<Call>, b: seq<Call>, s: Session, m: Measure)
    requires multiset(a) == multiset(b)
    ensures SumCalls(a, s, m) == SumCalls(b, s, m)
    decreases |a|
  {
    hide Share;
    if a == [] {
      assert |multiset(b)| == 0;
    } else {
      assert a[|a| - 1] in multiset(b);
      var i :| 0 <= i < |b| && b[i] == a[|a| - 1];
      DropSame(a, b, i);
      SumReordered(a[..|a| - 1], b[..i] + b[i + 1..], s, m);
      SumSplit(b, i, s, m);
    }
  }

  lemma {:induction false} DegradeTotal(em: Em, calls: seq<Call>, i: nat, s: Session, m: Measure)
    requires Valid(em) && Emittable(calls) && i <= |calls|
    requires forall c | c in calls :: !Summarises(c)
    ensures Balance(Degrade(em, calls, i), s, m) == Balance(em, s, m) + SumCalls(calls[i..], s, m)
    decreases |calls| - i
  {
    hide Valid, Grows, ThreadCall, Degrade, Balance, Share;
    if i == |calls| {
      ThreadFixpoint.DegradeEnds(em, calls);
    } else {
      ThreadFixpoint.DegradeStep(em, calls, i);
      ThreadCallTotal(em, calls[i], s, m);
      DegradeTotal(ThreadCall(em, calls[i]), calls, i + 1, s, m);
      assert calls[i..] == [calls[i]] + calls[i + 1..];
      SumConcat([calls[i]], calls[i + 1..], s, m);
      assert [calls[i]][..0] == [];
    }
  }

  lemma ThreadPhaseTotal(em: Em, pending: seq<Call>, s: Session, m: Measure)
    requires Valid(em) && Emittable(pending)
    requires forall c | c in pending :: !Summarises(c)
    ensures Balance(SpanModel.ThreadPhase(em, pending), s, m) == Balance(em, s, m) + SumCalls(pending, s, m)
  {
    hide Valid, Grows, Balance, SpanModel.ThreadPhase, Degrade, SumCalls;
    ThreadFixpoint.EveryThreadCallOnce(em, pending);
    var o := ThreadFixpoint.Order(em, pending) + Fixpoint(em, pending).1;
    forall c | c in o ensures !Summarises(c) { assert c in multiset(o); }
    DegradeTotal(em, o, 0, s, m);
    assert o[0..] == o;
    SumReordered(o, pending, s, m);
  }

  lemma {:induction false} ShadowsTotal(em: Em, calls: seq<Call>, i: nat, s: Session, m: Measure)
    requires Valid(em) && Emittable(calls) && i <= |calls|
    requires forall c | c in calls :: !Summarises(c)
    ensures Balance(Shadows(em, calls, i), s, m) == Balance(em, s, m) + SumCalls(calls[i..], s, m)
    decreases |calls| - i
  {
    hide Valid, Grows, ShadowCall, Balance, Share;
    if i < |calls| {
      ShadowCallTotal(em, calls[i], s, m);
      ShadowsTotal(ShadowCall(em, calls[i]), calls, i + 1, s, m);
      assert calls[i..] == [calls[i]] + calls[i + 1..];
      SumConcat([calls[i]], calls[i + 1..], s, m);
      assert [calls[i]][..0] == [];
    }
  }

  lemma {:induction false} SpineTotal(calls: seq<Call>, n: nat, s: Session, m: Measure)
    requires n <= |calls| && WellFormed(calls)
    ensures Balance(Spine(calls, n), s, m) == SumCalls(Only(calls[..n], IsSpine), s, m)
  {
    hide Valid, MainCall, CompactionCall, Share, Balance, SumCalls;
    if n == 0 {
      NothingYet(s, m);
    } else {
      SpineTotal(calls, n - 1, s, m);
      assert calls[..n][..n - 1] == calls[..n - 1];
      SpineStep(Spine(calls, n - 1), Only(calls[..n - 1], IsSpine), calls[n - 1], s, m);
    }
  }

  lemma NothingYet(s: Session, m: Measure)
    ensures Balance(EMPTY, s, m) == SumCalls([], s, m)
  {
    assert ToolsOf(EMPTY.tools, s) == {};
  }

  lemma SpineStep(em: Em, p: seq<Call>, c: Call, s: Session, m: Measure)
    requires Valid(em) && c.Valid() && Balance(em, s, m) == SumCalls(p, s, m)
    ensures c.chain != [] && IsSpine(c) ==>
              && SumCalls(p + [c], s, m) == SumCalls(p, s, m) + Share(c, s, m)
              && (c.kind == Main ==> Balance(MainCall(em, c), s, m) == SumCalls(p + [c], s, m))
              && (c.kind == Compaction ==> Balance(CompactionCall(em, c), s, m) == SumCalls(p + [c], s, m))
  {
    hide Valid, MainCall, CompactionCall, Share, Balance;
    SumOne(p, c, s, m);
    if c.chain != [] && IsSpine(c) {
      if c.kind == Main { MainCallTotal(em, c, s, m); } else { CompactionCallTotal(em, c, s, m); }
    }
  }

  lemma NoChainNoShare(c: Call, s: Session, m: Measure)
    ensures c.chain == [] ==> Share(c, s, m) == 0
  {
  }

  lemma SumNone(s: Session, m: Measure)
    ensures SumCalls([], s, m) == 0
  {
  }

  /** The three phases between them see every call with a chain once. */
  lemma {:induction false} PhasesPartition(calls: seq<Call>, s: Session, m: Measure)
    ensures SumCalls(calls, s, m)
         == SumCalls(Only(calls, IsSpine), s, m) + SumCalls(Only(calls, IsThread), s, m)
            + SumCalls(Only(calls, IsShadow), s, m)
  {
    hide SumCalls, Share;
    SumNone(s, m);
    if calls != [] {
      var rest, c := calls[..|calls| - 1], calls[|calls| - 1];
      assert calls == rest + [c];
      PhasesPartition(rest, s, m);
      SumOne(rest, c, s, m);
      NoChainNoShare(c, s, m);
      SumOne(Only(rest, IsSpine), c, s, m);
      SumOne(Only(rest, IsThread), c, s, m);
      SumOne(Only(rest, IsShadow), c, s, m);
    }
  }

  lemma WalkBalance(calls: seq<Call>, s: Session, m: Measure)
    requires WellFormed(calls)
    ensures Balance(Walk(calls), s, m) == SumCalls(calls, s, m)
  {
    hide Valid, Grows, Spine, SpanModel.ThreadPhase, Shadows, Balance, SumCalls;
    var spine := Spine(calls, |calls|);
    var threads, shadows := Only(calls, IsThread), Only(calls, IsShadow);
    SpineTotal(calls, |calls|, s, m);
    assert calls[..|calls|] == calls;
    ThreadPhaseTotal(spine, threads, s, m);
    ShadowsTotal(SpanModel.ThreadPhase(spine, threads), shadows, 0, s, m);
    assert shadows[0..] == shadows;
    PhasesPartition(calls, s, m);
  }

  /** Conservation of spend: for every session and every total finish reports, the spans of
      the session's traces carry exactly what its calls retained. */
  lemma SpendConserved(calls: seq<Call>, s: Session, m: Measure)
    requires WellFormed(calls) && !m.ToolSpans?
    ensures SessionTotal(Walk(calls).turns, s, m) == SumCalls(calls, s, m)
  {
    hide Valid, Walk, SessionTotal, SumCalls;
    WalkBalance(calls, s, m);
  }

  // ---------------------------------------------------------------- tool calls

  lemma {:induction false} NoToolShare(calls: seq<Call>, s: Session)
    ensures SumCalls(calls, s, ToolSpans) == 0
  {
    if calls != [] {
      NoToolShare(calls[..|calls| - 1], s);
    }
  }

  /** The tool_use ids of a session that some main or thread call's response emits. */
  ghost predicate EmittedBySome(calls: seq<Call>, k: Key) {
    exists c | c in calls :: EmitsTool(c, k)
  }

  ghost predicate EmitsTool(c: Call, k: Key) {
    c.chain != [] && (c.kind == Main || IsThread(c)) && k in Emitted(c)
  }

  lemma MainCallKeys(em: Em, c: Call)
    requires Valid(em) && c.Valid() && c.chain != []
    ensures Gains(em.tools, MainCall(em, c).tools, Emitted(c))
  {
    hide Valid, Grows, OpenTrace, EmitConversation, SpanModel.Prompt;
    var started :=
      if c.session !in em.cur || SpanModel.Prompt(c).Some? then OpenTrace(em, c, SpanModel.Prompt(c)) else em;
    CurrentTurn(started, c.session);
    EmitConversationKeys(started, c, started.cur[c.session], RootIdAt(started, started.cur[c.session]));
  }

  lemma {:induction false} SpineTools(calls: seq<Call>, n: nat, k: Key)
    requires n <= |calls| && WellFormed(calls)
    ensures k in Spine(calls, n).tools
       <==> exists c | c in calls[..n] :: c.chain != [] && c.kind == Main && c.thread == "" && k in Emitted(c)
  {
    hide Valid, MainCall, CompactionCall, Emitted;
    if n > 0 {
      SpineTools(calls, n - 1, k);
      var em := Spine(calls, n - 1);
      var c := calls[n - 1];
      assert calls[..n] == calls[..n - 1] + [c];
      if c.chain != [] && IsSpine(c) && c.kind == Main { MainCallKeys(em, c); }
    }
  }

  lemma {:induction false} DegradeTools(em: Em, calls: seq<Call>, i: nat, k: Key)
    requires Valid(em) && Emittable(calls) && i <= |calls|
    ensures k in Degrade(em, calls, i).tools <==> k in em.tools || exists c | c in calls[i..] :: k in Emitted(c)
    decreases |calls| - i
  {
    hide Valid, Grows, ThreadCall, Emitted, Degrade;
    if i == |calls| {
      ThreadFixpoint.DegradeEnds(em, calls);
    } else {
      ThreadFixpoint.DegradeStep(em, calls, i);
      ThreadCallKeys(em, calls[i]);
      DegradeTools(ThreadCall(em, calls[i]), calls, i + 1, k);
      assert calls[i..] == [calls[i]] + calls[i + 1..];
    }
  }

  lemma {:induction false} ShadowsTools(em: Em, calls: seq<Call>, i: nat)
    requires Valid(em) && Emittable(calls) && i <= |calls|
    ensures Shadows(em, calls, i).tools == em.tools
    decreases |calls| - i
  {
    hide Valid, Grows, ShadowCall;
    if i < |calls| {
      ShadowsTools(ShadowCall(em, calls[i]), calls, i + 1);
    }
  }

  lemma {:induction false} OnlyMembers(calls: seq<Call>, p: Call -> bool, c: Call)
    ensures c in Only(calls, p) <==> c in calls && c.chain != [] && p(c)
  {
    if calls != [] {
      OnlyMembers(calls[..|calls| - 1], p, c);
      assert calls == calls[..|calls| - 1] + [calls[|calls| - 1]];
    }
  }

  /** The registry of the finished walk is the set of emitted tool_use ids. */
  lemma WalkTools(calls: seq<Call>, k: Key)
    requires WellFormed(calls)
    ensures k in Walk(calls).tools <==> EmittedBySome(calls, k)
  {
    hide Valid, Grows, Spine, SpanModel.ThreadPhase, Shadows, Only, Emitted, Degrade;
    var spine := Spine(calls, |calls|);
    var threads, shadows := Only(calls, IsThread), Only(calls, IsShadow);
    SpineTools(calls, |calls|, k);
    assert calls[..|calls|] == calls;
    ThreadFixpoint.EveryThreadCallOnce(spine, threads);
    var o := ThreadFixpoint.Order(spine, threads) + Fixpoint(spine, threads).1;
    DegradeTools(spine, o, 0, k);
    assert o[0..] == o;
    ShadowsTools(SpanModel.ThreadPhase(spine, threads), shadows, 0);
    forall c ensures c in o <==> c in calls && c.chain != [] && IsThread(c) {
      OnlyMembers(calls, IsThread, c);
      assert c in o <==> c in multiset(o);
      assert c in threads <==> c in multiset(threads);
    }
    if EmittedBySome(calls, k) {
      var c :| c in calls && EmitsTool(c, k);
      assert (c.kind == Main && c.thread == "") || c in o;
    }
    if exists c | c in o :: k in Emitted(c) {
      var c :| c in o && k in Emitted(c);
      assert EmitsTool(c, k);
    }
    if exists c | c in calls :: c.chain != [] && c.kind == Main && c.thread == "" && k in Emitted(c) {
      var c :| c in calls && c.chain != [] && c.kind == Main && c.thread == "" && k in Emitted(c);
      assert EmitsTool(c, k);
    }
  }

  /** ToolCalls, summed over a session, counts its distinct emitted tool_use ids. */
  lemma ToolCallsAreDistinctIds(calls: seq<Call>, s: Session)
    requires WellFormed(calls)
    ensures exists ids: set<Key> ::
              && (forall k :: k in ids <==> k.session == s && EmittedBySome(calls, k))
              && SessionTotal(Walk(calls).turns, s, ToolSpans) == |ids|
  {
    hide Valid, Walk, SessionTotal, SumCalls, EmittedBySome;
    WalkBalance(calls, s, ToolSpans);
    NoToolShare(calls, s);
    var ids := ToolsOf(Walk(calls).tools, s);
    forall k ensures k in ids <==> k.session == s && EmittedBySome(calls, k) {
      WalkTools(calls, k);
    }
  }

  // ---------------------------------------------------------------- one llm span a call

  lemma {:induction false} OneShare(calls: seq<Call>, i: nat)
    requires i < |calls| && calls[i].chain != []
    requires forall j | 0 <= j < |calls| && j != i && calls[j].chain != [] :: Identity(calls[j]) != Identity(calls[i])
    ensures SumCalls(calls, calls[i].session, LlmSpansOf(Identity(calls[i]))) == 1
  {
    var n := |calls| - 1;
    if i == n {
      NoShare(calls[..n], calls[i]);
    } else {
      OneShare(calls[..n], i);
    }
  }

  lemma {:induction false} NoShare(calls: seq<Call>, c: Call)
    requires c.chain != []
    requires forall j | 0 <= j < |calls| && calls[j].chain != [] :: Identity(calls[j]) != Identity(c)
    ensures SumCalls(calls, c.session, LlmSpansOf(Identity(c))) == 0
  {
    if calls != [] { NoShare(calls[..|calls| - 1], c); }
  }

  /** Every call with a chain, whatever its kind and phase, has exactly one llm span. */
  lemma OneLlmSpanPerCall(calls: seq<Call>, i: nat)
    requires WellFormed(calls) && i < |calls| && calls[i].chain != []
    requires forall j | 0 <= j < |calls| && j != i && calls[j].chain != [] :: Identity(calls[j]) != Identity(calls[i])
    ensures SessionTotal(Walk(calls).turns, calls[i].session, LlmSpansOf(Identity(calls[i]))) == 1
  {
    hide Walk, SessionTotal;
    SpendConserved(calls, calls[i].session, LlmSpansOf(Identity(calls[i])));
    OneShare(calls, i);
  }
}
