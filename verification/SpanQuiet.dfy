/** What a conversation leaves alone: it only adds spans, links and tool results to the
    traces that are there. */
module SpanQuiet {
  import opened Llm
  import opened DeriveModel
  import opened SpanModel

  /** No trace is opened, filed or marked, no seam moves and nothing is counted. */
  ghost predicate SameFiling(a: Em, b: Em)
    ensures SameFiling(a, b) ==> b.cur == a.cur && b.timeline == a.timeline && b.seam == a.seam && SameCounts(a, b)
    ensures SameFiling(a, b) ==> |b.turns| == |a.turns|
  {
    && b.cur == a.cur && b.timeline == a.timeline && b.seam == a.seam && SameCounts(a, b)
    && |b.turns| == |a.turns| && forall t | 0 <= t < |a.turns| :: b.turns[t].synthetic == a.turns[t].synthetic
  }

  /** Nothing but a tool span ever changes once it is there. */
  ghost predicate OnlyToolsChange(x: seq<Turn>, y: seq<Turn>) {
    |x| <= |y| && forall t | 0 <= t < |x| :: SpansKept(x[t].spans, y[t].spans)
  }

  ghost predicate SpansKept(x: seq<Span>, y: seq<Span>) {
    |x| <= |y| && forall k | 0 <= k < |x| && x[k].fixed.kind != ToolSpan :: y[k] == x[k]
  }

  ghost predicate Quiet(a: Em, b: Em)
    ensures Quiet(a, b) ==> SameFiling(a, b) && OnlyToolsChange(a.turns, b.turns)
  {
    SameFiling(a, b) && OnlyToolsChange(a.turns, b.turns)
  }

  lemma QuietItself(em: Em)
    ensures Quiet(em, em)
  {
  }

  lemma QuietOn(a: Em, b: Em, c: Em)
    requires Quiet(a, b) && Quiet(b, c)
    ensures Quiet(a, c)
  {
    forall t | 0 <= t < |a.turns| ensures SpansKept(a.turns[t].spans, c.turns[t].spans) {
      assert SpansKept(a.turns[t].spans, b.turns[t].spans) && SpansKept(b.turns[t].spans, c.turns[t].spans);
    }
  }

  lemma AddSpanQuietly(em: Em, t: nat, sp: Span)
    requires Valid(em) && t < |em.turns|
    ensures Quiet(em, AddSpan(em, t, sp))
  {
    hide Valid, Grows;
  }

  lemma AddLinkQuietly(em: Em, t: nat, l: Link)
    requires Valid(em) && t < |em.turns|
    ensures Quiet(em, AddLink(em, t, l))
  {
    hide Valid, Grows;
  }

  lemma SetSpanQuietly(em: Em, r: Ref, sp: Span)
    requires Valid(em) && r.turn < |em.turns| && r.span < |em.turns[r.turn].spans| && SpanGrows(SpanAt(em, r), sp)
    ensures SameFiling(em, SetSpan(em, r, sp)) && SetSpan(em, r, sp).tools == em.tools
    ensures SpanAt(em, r).fixed.kind == ToolSpan ==> Quiet(em, SetSpan(em, r, sp))
  {
    hide Valid, Grows;
  }

  lemma FillQuietly(em: Em, s: Session, b: ContentBlock, at: int)
    requires Valid(em)
    ensures Quiet(em, Fill(em, s, b, at).0) && Fill(em, s, b, at).0.tools == em.tools
  {
    hide Valid, Grows, SetSpan, Quiet;
    var k := Key(s, if b.toolResultId != "" then b.toolResultId else b.toolUseId);
    QuietItself(em);
    if k in em.tools {
      ToolPlace(em, k);
      var ts := SpanAt(em, em.tools[k]);
      if ts.output == [] {
        var d := at - ts.fixed.startedAt;
        SetSpanQuietly(em, em.tools[k],
                       ts.(output := [b], failed := ts.failed || b.isError, duration := if d > 0 then d else ts.duration));
      }
    }
  }

  lemma {:induction false} ScanResultsQuietly(em: Em, s: Session, blocks: seq<ContentBlock>, at: int, j: nat, feeds: seq<Key>)
    requires Valid(em) && j <= |blocks| && forall k | k in feeds :: k in em.tools && k.session == s
    ensures Quiet(em, ScanResults(em, s, blocks, at, j, feeds).0)
    decreases |blocks| - j
  {
    hide Valid, Grows, Fill;
    if j < |blocks| {
      if blocks[j].kind != ToolResult {
        ScanResultsQuietly(em, s, blocks, at, j + 1, feeds);
      } else {
        var f := Fill(em, s, blocks[j], at);
        FillQuietly(em, s, blocks[j], at);
        var more := if f.1.Some? then feeds + [f.1.value] else feeds;
        ScanResultsQuietly(f.0, s, blocks, at, j + 1, more);
        QuietOn(em, f.0, ScanResults(f.0, s, blocks, at, j + 1, more).0);
      }
    }
  }

  lemma ScanNodeQuietly(em: Em, c: Call, t: nat, parent: SpanId, i: nat, feeds: seq<Key>)
    requires Valid(em) && c.Valid() && i < |c.chain| && t < |em.turns|
    requires forall k | k in feeds :: k in em.tools && k.session == c.session
    ensures Quiet(em, ScanNode(em, c, t, parent, i, feeds).0)
  {
    hide Valid, Grows, ScanResults, Boundary, AddSpan, EventSpanOf, Quiet;
    var n := c.chain[i];
    QuietItself(em);
    AddSpanQuietly(em, t, EventSpanOf(c, parent, n.kind, n));
    AddSpanQuietly(em, t, EventSpanOf(c, parent, Injected("system-insert"), n));
    ScanResultsQuietly(em, c.session, c.chain[i].bucket.content, c.chain[i].capturedAt, 0, feeds);
  }

  lemma {:induction false} ScanRequestQuietly(em: Em, c: Call, t: nat, parent: SpanId, i: nat, feeds: seq<Key>)
    requires Valid(em) && c.Valid() && i < |c.chain| && t < |em.turns|
    requires forall k | k in feeds :: k in em.tools && k.session == c.session
    ensures Quiet(em, ScanRequest(em, c, t, parent, i, feeds).0)
    decreases |c.chain| - i
  {
    hide Valid, Grows, ScanNode, Quiet;
    if i == |c.chain| - 1 {
      QuietItself(em);
    } else {
      var n := ScanNode(em, c, t, parent, i, feeds);
      ScanNodeQuietly(em, c, t, parent, i, feeds);
      ScanRequestQuietly(n.0, c, t, parent, i + 1, n.1);
      QuietOn(em, n.0, ScanRequest(n.0, c, t, parent, i + 1, n.1).0);
    }
  }

  lemma {:induction false} LinkFeedsQuietly(em: Em, feeds: seq<Key>, t: nat, span: SpanId, i: nat)
    requires Valid(em) && t < |em.turns| && i <= |feeds| && forall k | k in feeds :: k in em.tools
    ensures Quiet(em, LinkFeeds(em, feeds, t, span, i))
    decreases |feeds| - i
  {
    hide Valid, Grows, AddLink, Quiet;
    if i == |feeds| {
      QuietItself(em);
    } else {
      var l := AddLink(em, t, FeedLink(em, feeds[i], t, span));
      AddLinkQuietly(em, t, FeedLink(em, feeds[i], t, span));
      LinkFeedsQuietly(l, feeds, t, span, i + 1);
      QuietOn(em, l, LinkFeeds(l, feeds, t, span, i + 1));
    }
  }

  lemma EmitToolQuietly(em: Em, c: Call, t: nat, parent: SpanId, b: ContentBlock)
    requires Valid(em) && t < |em.turns| && em.turns[t].session == c.session && c.chain != []
    ensures Quiet(em, EmitTool(em, c, t, parent, b))
  {
    hide Valid, Grows, AddLink, AddSpan, ToolSpanOf;
    var id := em.turns[t].traceId;
    var llm := LlmCall(Identity(c));
    var k := Key(c.session, b.toolUseId);
    if Emission(b) {
      if k in em.tools {
        ToolPlace(em, k);
        AddLinkQuietly(em, t, Link(id, llm, em.turns[em.tools[k].turn].traceId, ToolCall(k.id), Emits));
      } else {
        ToolSpanShape(c, parent, b);
        var added := AddTool(em, t, ToolSpanOf(c, parent, b), k);
        AddSpanQuietly(em, t, ToolSpanOf(c, parent, b));
        AddLinkQuietly(added, t, Link(id, llm, id, ToolCall(k.id), Emits));
        QuietOn(em, added, AddLink(added, t, Link(id, llm, id, ToolCall(k.id), Emits)));
      }
    }
  }

  lemma ToolSpanShape(c: Call, parent: SpanId, b: ContentBlock)
    ensures ToolSpanOf(c, parent, b).fixed.kind == ToolSpan && ToolSpanOf(c, parent, b).fixed.id == ToolCall(b.toolUseId)
  {
  }

  lemma {:induction false} EmitToolsQuietly(em: Em, c: Call, t: nat, parent: SpanId, blocks: seq<ContentBlock>, j: nat)
    requires Valid(em) && t < |em.turns| && em.turns[t].session == c.session && c.chain != [] && j <= |blocks|
    ensures Quiet(em, EmitTools(em, c, t, parent, blocks, j))
    decreases |blocks| - j
  {
    hide Valid, Grows, EmitTool, Quiet;
    if j == |blocks| {
      QuietItself(em);
    } else {
      var e := EmitTool(em, c, t, parent, blocks[j]);
      EmitToolQuietly(em, c, t, parent, blocks[j]);
      TurnStays(em, e, t);
      EmitToolsQuietly(e, c, t, parent, blocks, j + 1);
      QuietOn(em, e, EmitTools(e, c, t, parent, blocks, j + 1));
    }
  }

  lemma ConversationQuietly(em: Em, c: Call, t: nat, parent: SpanId)
    requires Valid(em) && c.Valid() && c.chain != [] && t < |em.turns| && em.turns[t].session == c.session
    ensures Quiet(em, EmitConversation(em, c, t, parent))
  {
    hide Valid, Grows, ScanRequest, LlmSpanOf, AddSpan, LinkFeeds, EmitTools, FreshInput, Quiet;
    var scan := ScanRequest(em, c, t, parent, 0, []);
    var withLlm := AddSpan(scan.0, t, LlmSpanOf(c, parent, FreshInput(c)));
    var fed := LinkFeeds(withLlm, scan.1, t, LlmCall(Identity(c)), 0);
    GrowsTransitive(em, scan.0, withLlm);
    GrowsTransitive(em, withLlm, fed);
    TurnStays(em, fed, t);
    ScanRequestQuietly(em, c, t, parent, 0, []);
    AddSpanQuietly(scan.0, t, LlmSpanOf(c, parent, FreshInput(c)));
    QuietOn(em, scan.0, withLlm);
    LinkFeedsQuietly(withLlm, scan.1, t, LlmCall(Identity(c)), 0);
    QuietOn(em, withLlm, fed);
    EmitToolsQuietly(fed, c, t, parent, c.Response().bucket.content, 0);
    QuietOn(em, fed, EmitConversation(em, c, t, parent));
  }

  lemma StretchQuietly(em: Em, c: Call)
    requires Valid(em) && ThreadKey(c) in em.agents
    ensures SameFiling(em, StretchAgent(em, c))
  {
    hide Valid, Grows, SetSpan, SameFiling;
    QuietItself(em);
    AgentPlace(em, ThreadKey(c));
    var agent := SpanAt(em, em.agents[ThreadKey(c)]);
    if c.at > agent.fixed.startedAt {
      SetSpanQuietly(em, em.agents[ThreadKey(c)], agent.(duration := c.at - agent.fixed.startedAt));
    }
  }
}
