/** The whole walk keeps the output sound: every call shape, every phase, every order in
    which the thread phase happens to place its calls. */
module SpanWalk {
  import opened Llm
  import opened DeriveModel
  import opened SpanModel
  import opened SpanSoundness
  import ThreadFixpoint

  // ---------------------------------------------------------------- what a call uses up

  /** The request hashes a call captures first, from position i on. */
  ghost function NewFrom(c: Call, i: nat): set<Hash>
    requires c.Valid()
  {
    set j | i <= j < |c.chain| - 1 && c.isNew[j] :: c.chain[j].hash
  }

  ghost predicate FreshFrom(c: Call, i: nat, seen: set<Hash>)
    requires c.Valid()
  {
    forall j | i <= j < |c.chain| - 1 && c.isNew[j] ::
      c.chain[j].hash !in seen && forall k | i <= k < j && c.isNew[k] :: c.chain[k].hash != c.chain[j].hash
  }

  ghost predicate Unused(c: Call, used: Used)
    requires c.Valid() && c.chain != []
  {
    Identity(c) !in used.traces && Identity(c) !in used.spoken && FreshFrom(c, 0, used.seen)
  }

  ghost function After(used: Used, c: Call): Used
    requires c.Valid() && c.chain != []
  {
    Used(used.traces + {Identity(c)}, used.spoken + {Identity(c)}, used.seen + NewFrom(c, 0))
  }

  ghost function Rest(used: Used): Ctx {
    Ctx(used, None, multiset{})
  }

  lemma IdStays(a: Em, b: Em, t: nat, id: SpanId)
    requires Grows(a, b) && t < |a.turns| && HasId(a.turns[t].spans, |a.turns[t].spans|, id)
    ensures t < |b.turns| && HasId(b.turns[t].spans, |b.turns[t].spans|, id)
  {
    TurnStays(a, b, t);
    var i :| 0 <= i < |a.turns[t].spans| && a.turns[t].spans[i].fixed.id == id;
    assert SpanGrows(a.turns[t].spans[i], b.turns[t].spans[i]);
  }

  lemma IdEnds(turns: seq<Turn>, t: nat, id: SpanId)
    requires t < |turns| && HasId(turns[t].spans, |turns[t].spans|, id)
    ensures EndExists(turns, End(turns[t].traceId, id))
  {
    assert EndIn(turns[t], End(turns[t].traceId, id));
  }

  lemma PlaceHasId(em: Em, r: Ref, s: Session, kind: SpanKind, id: SpanId)
    requires Points(em.turns, r, s, kind, id)
    ensures HasId(em.turns[r.turn].spans, |em.turns[r.turn].spans|, id)
  {
  }

  lemma RootHasId(em: Em, t: nat)
    requires Valid(em) && t < |em.turns|
    ensures HasId(em.turns[t].spans, |em.turns[t].spans|, RootIdAt(em, t))
  {
    assert em.turns[t].spans[0].fixed.id == RootIdAt(em, t);
  }

  // ---------------------------------------------------------------- traces

  lemma SeamLinkGood(em: Em, c: Call, t: nat, ctx: Ctx)
    requires Sound(em, ctx) && c.chain != [] && t < |em.turns| && c.session in em.seam
    requires em.turns[t].traceId == Trace(Identity(c)) && ctx.pend == Some(End(Trace(Identity(c)), LlmCall(Identity(c))))
    ensures GoodLink(em, t, SeamLink(em, c), ctx.pend)
  {
    SeamPlace(em, c.session);
    var from := em.seam[c.session];
    assert HasId(em.turns[from.turn].spans, |em.turns[from.turn].spans|, SpanAt(em, from).fixed.id);
    IdEnds(em.turns, from.turn, SpanAt(em, from).fixed.id);
  }

  lemma OpenTraceSound(em: Em, c: Call, prompt: Option<Hash>, used: Used)
    requires Sound(em, Rest(used)) && c.chain != [] && Identity(c) !in used.traces
    ensures Sound(OpenTrace(em, c, prompt),
                  Ctx(used.(traces := used.traces + {Identity(c)}),
                      Some(End(Trace(Identity(c)), LlmCall(Identity(c)))), multiset{}))
    ensures OpenTrace(em, c, prompt).turns[|em.turns|].traceId == Trace(Identity(c))
    ensures c.session !in em.seam ==>
              Sound(OpenTrace(em, c, prompt), Rest(used.(traces := used.traces + {Identity(c)})))
              && OpenTrace(em, c, prompt).turns[|em.turns|].synthetic == Genuine
              && OpenTrace(em, c, prompt).cross == em.cross && OpenTrace(em, c, prompt).seam == em.seam
  {
    hide Valid, Grows, Sound, GoodLink, MarkSynthetic, AddLink, SeamLink;
    SoundIsValid(em, Rest(used));
    var pushed := PushTurn(em, TurnOpenedBy(c, prompt));
    var t := |em.turns|;
    var plain := Rest(used.(traces := used.traces + {Identity(c)}));
    var ctx := plain.(pend := Some(End(Trace(Identity(c)), LlmCall(Identity(c)))));
    PushTurnSound(em, c, prompt, Rest(used));
    Weaken(pushed, plain, ctx);
    if c.session in em.seam {
      var marked := MarkSynthetic(pushed, t, PostCompaction);
      MarkSound(pushed, t, PostCompaction, ctx);
      var taken := TakeSeam(pushed, c.session, t);
      SameShapeSound(marked, taken, ctx);
      SeamLinkGood(pushed, c, t, ctx);
      GoodLinkStays(pushed, taken, t, SeamLink(pushed, c), ctx.pend);
      NotFeeds(pushed, c);
      AddLinkSound(taken, t, SeamLink(pushed, c), ctx);
      TraceIdStays(pushed, taken, t);
      TraceIdStays(taken, AddLink(taken, t, SeamLink(pushed, c)), t);
    }
  }

  lemma SoundIsValid(em: Em, ctx: Ctx)
    requires Sound(em, ctx)
    ensures Valid(em)
  {
  }

  lemma NotFeeds(em: Em, c: Call)
    requires Valid(em) && c.chain != [] && c.session in em.seam
    ensures SeamLink(em, c).kind == CompactionSeam
  {
  }

  lemma TraceIdStays(a: Em, b: Em, t: nat)
    requires Grows(a, b) && t < |a.turns|
    ensures t < |b.turns| && b.turns[t].traceId == a.turns[t].traceId && b.turns[t].session == a.turns[t].session
  {
    TurnStays(a, b, t);
  }

  lemma GoodLinkStays(a: Em, b: Em, host: nat, l: Link, pend: Option<End>)
    requires Grows(a, b) && host < |a.turns| && GoodLink(a, host, l, pend)
    ensures host < |b.turns| && GoodLink(b, host, l, pend)
  {
    TraceIdStays(a, b, host);
    GrowsTurns(a, b);
    LinkStays(a.turns, b.turns, l, pend);
  }

  /** A synthesized trace never meets an armed seam: an armed seam presupposes a trace. So
      only spine calls that open a trace ever close one. */
  lemma EnsureTraceLeavesSeam(em: Em, c: Call)
    requires Valid(em) && c.chain != []
    ensures EnsureTrace(em, c).seam == em.seam && EnsureTrace(em, c).cross == em.cross
  {
  }

  lemma EnsureTraceSound(em: Em, c: Call, used: Used)
    requires Sound(em, Rest(used)) && c.chain != [] && Identity(c) !in used.traces
    ensures Sound(EnsureTrace(em, c), Rest(used.(traces := used.traces + {Identity(c)})))
  {
    hide Valid, Grows, Sound, OpenTrace, MarkSynthetic;
    var ctx := Rest(used.(traces := used.traces + {Identity(c)}));
    SoundIsValid(em, Rest(used));
    if c.session in em.cur {
      Weaken(em, Rest(used), ctx);
    } else {
      if c.session in em.seam { SeamPlace(em, c.session); }
      OpenTraceSound(em, c, None, used);
      MarkSound(OpenTrace(em, c, None), |em.turns|, ShadowOpener, ctx);
    }
  }

  // ---------------------------------------------------------------- one conversation

  lemma {:induction false} ScanResultsSound(em: Em, s: Session, blocks: seq<ContentBlock>, at: int, j: nat,
                                            feeds: seq<Key>, ctx: Ctx)
    requires Sound(em, ctx) && Valid(em) && j <= |blocks| && multiset(feeds) == ctx.owed
    requires forall k | k in feeds :: k in em.tools && k.session == s
    ensures var r := ScanResults(em, s, blocks, at, j, feeds);
            Sound(r.0, ctx.(owed := multiset(r.1)))
    decreases |blocks| - j
  {
    hide Valid, Grows, Sound, Fill;
    if j == |blocks| {
    } else if blocks[j].kind != ToolResult {
      ScanResultsSound(em, s, blocks, at, j + 1, feeds, ctx);
    } else {
      var f := Fill(em, s, blocks[j], at);
      FillSound(em, s, blocks[j], at, ctx);
      var more := if f.1.Some? then feeds + [f.1.value] else feeds;
      KeysStay(em, f.0, more, s);
      ScanResultsSound(f.0, s, blocks, at, j + 1, more, ctx.(owed := multiset(more)));
    }
  }

  lemma KeysStay(a: Em, b: Em, feeds: seq<Key>, s: Session)
    requires Grows(a, b) && forall k | k in feeds :: k in a.tools && k.session == s
    ensures forall k | k in feeds :: k in b.tools && k.session == s
  {
  }

  lemma EventSound(em: Em, c: Call, t: nat, parent: SpanId, kind: Kind, i: nat, ctx: Ctx)
    requires Sound(em, ctx) && Valid(em) && c.Valid() && i < |c.chain| - 1 && t < |em.turns|
    requires HasId(em.turns[t].spans, |em.turns[t].spans|, parent)
    requires c.isNew[i] && FreshFrom(c, i, ctx.used.seen)
    requires ctx.pend.Some? ==> ctx.pend.value.span.LlmCall?
    ensures Sound(AddSpan(em, t, EventSpanOf(c, parent, kind, c.chain[i])),
                  ctx.(used := ctx.used.(seen := ctx.used.seen + {c.chain[i].hash})))
  {
    hide Valid, Grows, Sound, AddSpan;
    AddSpanSound(em, t, EventSpanOf(c, parent, kind, c.chain[i]), ctx);
  }

  lemma ScanNodeSound(em: Em, c: Call, t: nat, parent: SpanId, i: nat, feeds: seq<Key>, ctx: Ctx)
    requires Sound(em, ctx) && Valid(em) && c.Valid() && i < |c.chain| - 1 && t < |em.turns|
    requires HasId(em.turns[t].spans, |em.turns[t].spans|, parent)
    requires multiset(feeds) == ctx.owed && FreshFrom(c, i, ctx.used.seen)
    requires ctx.pend.Some? ==> ctx.pend.value.span.LlmCall?
    requires forall k | k in feeds :: k in em.tools && k.session == c.session
    ensures var r := ScanNode(em, c, t, parent, i, feeds);
            Sound(r.0, ctx.(used := ctx.used.(seen := ctx.used.seen + (if c.isNew[i] then {c.chain[i].hash} else {})),
                            owed := multiset(r.1)))
  {
    hide Valid, Grows, Sound, AddSpan, ScanResults, Boundary, FreshFrom, HasId;
    var n := c.chain[i];
    var wide := ctx.(used := ctx.used.(seen := ctx.used.seen + (if c.isNew[i] then {c.chain[i].hash} else {})));
    var r := ScanNode(em, c, t, parent, i, feeds);
    if !c.isNew[i] {
      assert wide == ctx;
    } else if n.kind.Injected? && i > Boundary(c) {
      EventSound(em, c, t, parent, n.kind, i, ctx);
    } else if !n.kind.Injected? && n.bucket.role == System && i > Boundary(c) {
      EventSound(em, c, t, parent, Injected("system-insert"), i, ctx);
    } else if !n.kind.Injected? && (n.bucket.role == User || n.bucket.role == Tool) {
      Weaken(em, ctx, wide);
      ScanResultsSound(em, c.session, n.bucket.content, n.capturedAt, 0, feeds, wide);
    } else {
      Weaken(em, ctx, wide);
    }
  }

  lemma {:induction false} ScanRequestSound(em: Em, c: Call, t: nat, parent: SpanId, i: nat, feeds: seq<Key>, ctx: Ctx)
    requires Sound(em, ctx) && Valid(em) && c.Valid() && i < |c.chain| && t < |em.turns|
    requires HasId(em.turns[t].spans, |em.turns[t].spans|, parent)
    requires multiset(feeds) == ctx.owed && FreshFrom(c, i, ctx.used.seen)
    requires ctx.pend.Some? ==> ctx.pend.value.span.LlmCall?
    requires forall k | k in feeds :: k in em.tools && k.session == c.session
    ensures var r := ScanRequest(em, c, t, parent, i, feeds);
            Sound(r.0, ctx.(used := ctx.used.(seen := ctx.used.seen + NewFrom(c, i)), owed := multiset(r.1)))
    decreases |c.chain| - i
  {
    hide Valid, Grows, Sound, ScanNode, HasId;
    if i == |c.chain| - 1 {
      assert ctx.used.seen + NewFrom(c, i) == ctx.used.seen;
    } else {
      var n := ScanNode(em, c, t, parent, i, feeds);
      var here := if c.isNew[i] then {c.chain[i].hash} else {};
      ScanNodeSound(em, c, t, parent, i, feeds, ctx);
      IdStays(em, n.0, t, parent);
      ScanRequestSound(n.0, c, t, parent, i + 1, n.1,
                       ctx.(used := ctx.used.(seen := ctx.used.seen + here), owed := multiset(n.1)));
      assert ctx.used.seen + here + NewFrom(c, i + 1) == ctx.used.seen + NewFrom(c, i);
    }
  }

  lemma {:induction false} LinkFeedsSound(em: Em, feeds: seq<Key>, t: nat, span: SpanId, i: nat, ctx: Ctx)
    requires Sound(em, ctx) && Valid(em) && t < |em.turns| && i <= |feeds|
    requires forall k | k in feeds :: k in em.tools
    requires ctx.owed == multiset(feeds[i..]) && HasId(em.turns[t].spans, |em.turns[t].spans|, span)
    ensures Sound(LinkFeeds(em, feeds, t, span, i), ctx.(owed := multiset{}))
    decreases |feeds| - i
  {
    hide Valid, Grows, Sound, AddLink, FeedLink, HasId;
    if i < |feeds| {
      assert feeds[i..] == [feeds[i]] + feeds[i + 1..];
      IdEnds(em.turns, t, span);
      AddFeedSound(em, feeds[i], t, span, ctx);
      var next := AddLink(em, t, FeedLink(em, feeds[i], t, span));
      IdStays(em, next, t, span);
      LinkFeedsSound(next, feeds, t, span, i + 1, ctx.(owed := ctx.owed - multiset{feeds[i]}));
    }
  }

  lemma EmitToolSound(em: Em, c: Call, t: nat, parent: SpanId, b: ContentBlock, used: Used)
    requires Sound(em, Rest(used)) && Valid(em) && t < |em.turns| && em.turns[t].session == c.session && c.chain != []
    requires HasId(em.turns[t].spans, |em.turns[t].spans|, parent)
    requires HasId(em.turns[t].spans, |em.turns[t].spans|, LlmCall(Identity(c)))
    ensures Sound(EmitTool(em, c, t, parent, b), Rest(used))
  {
    hide Valid, Grows, Sound, AddLink, AddTool, HasId, GoodLink;
    var k := Key(c.session, b.toolUseId);
    var id := em.turns[t].traceId;
    var llm := LlmCall(Identity(c));
    if Emission(b) {
      if k in em.tools {
        ToolPlace(em, k);
        ToolLinkGood(em, t, llm, k);
        AddLinkSound(em, t, Link(id, llm, em.turns[em.tools[k].turn].traceId, ToolCall(k.id), Emits), Rest(used));
      } else {
        AddToolSound(em, t, ToolSpanOf(c, parent, b), k, Rest(used));
        var added := AddTool(em, t, ToolSpanOf(c, parent, b), k);
        IdStays(em, added, t, llm);
        TraceIdStays(em, added, t);
        ToolLinkGood(added, t, llm, k);
        AddLinkSound(added, t, Link(id, llm, id, ToolCall(k.id), Emits), Rest(used));
      }
    }
  }

  /** A link from a span of turn t to a registered tool, or back, has both ends. */
  lemma ToolLinkGood(em: Em, t: nat, from: SpanId, k: Key)
    requires Valid(em) && t < |em.turns| && k in em.tools && HasId(em.turns[t].spans, |em.turns[t].spans|, from)
    ensures em.tools[k].turn < |em.turns|
    ensures forall kind, pend ::
              GoodLink(em, t, Link(em.turns[t].traceId, from, em.turns[em.tools[k].turn].traceId, ToolCall(k.id), kind), pend)
  {
    ToolPlace(em, k);
    PlaceHasId(em, em.tools[k], k.session, ToolSpan, ToolCall(k.id));
    IdEnds(em.turns, em.tools[k].turn, ToolCall(k.id));
    IdEnds(em.turns, t, from);
  }

  lemma {:induction false} EmitToolsSound(em: Em, c: Call, t: nat, parent: SpanId, blocks: seq<ContentBlock>, j: nat,
                                          used: Used)
    requires Sound(em, Rest(used)) && Valid(em) && t < |em.turns| && em.turns[t].session == c.session && c.chain != [] && j <= |blocks|
    requires HasId(em.turns[t].spans, |em.turns[t].spans|, parent)
    requires HasId(em.turns[t].spans, |em.turns[t].spans|, LlmCall(Identity(c)))
    ensures Sound(EmitTools(em, c, t, parent, blocks, j), Rest(used))
    decreases |blocks| - j
  {
    hide Valid, Grows, Sound, EmitTool, HasId;
    if j < |blocks| {
      EmitToolSound(em, c, t, parent, blocks[j], used);
      var e := EmitTool(em, c, t, parent, blocks[j]);
      TraceIdStays(em, e, t);
      IdStays(em, e, t, parent);
      IdStays(em, e, t, LlmCall(Identity(c)));
      EmitToolsSound(e, c, t, parent, blocks, j + 1, used);
    }
  }

  /** The llm span is the link end that was awaited, if one was. */
  lemma LlmSound(em: Em, c: Call, t: nat, parent: SpanId, input: seq<ContentBlock>, ctx: Ctx)
    requires Sound(em, ctx) && Valid(em) && c.chain != [] && t < |em.turns| && Identity(c) !in ctx.used.spoken
    requires HasId(em.turns[t].spans, |em.turns[t].spans|, parent)
    requires ctx.pend == None || ctx.pend == Some(End(em.turns[t].traceId, LlmCall(Identity(c))))
    ensures var b := AddSpan(em, t, LlmSpanOf(c, parent, input));
            && Sound(b, Ctx(ctx.used.(spoken := ctx.used.spoken + {Identity(c)}), None, ctx.owed))
            && HasId(b.turns[t].spans, |b.turns[t].spans|, LlmCall(Identity(c)))
  {
    hide Valid, Grows, Sound, AddSpan, HasId;
    AddSpanSound(em, t, LlmSpanOf(c, parent, input), ctx);
    var b := AddSpan(em, t, LlmSpanOf(c, parent, input));
    PlaceHasId(b, Ref(t, |em.turns[t].spans|), em.turns[t].session, LlmSpan, LlmCall(Identity(c)));
  }

  lemma EmitConversationSound(em: Em, c: Call, t: nat, parent: SpanId, ctx: Ctx)
    requires Sound(em, ctx) && Valid(em) && c.Valid() && c.chain != []
    requires t < |em.turns| && em.turns[t].session == c.session
    requires HasId(em.turns[t].spans, |em.turns[t].spans|, parent)
    requires Identity(c) !in ctx.used.spoken && FreshFrom(c, 0, ctx.used.seen) && ctx.owed == multiset{}
    requires ctx.pend == None || ctx.pend == Some(End(em.turns[t].traceId, LlmCall(Identity(c))))
    ensures Sound(EmitConversation(em, c, t, parent),
                  Rest(Used(ctx.used.traces, ctx.used.spoken + {Identity(c)}, ctx.used.seen + NewFrom(c, 0))))
  {
    hide Valid, Grows, Sound, ScanRequest, LlmSpanOf, AddSpan, LinkFeeds, EmitTools, FreshInput, HasId, FreshFrom, NewFrom;
    var scan := ScanRequest(em, c, t, parent, 0, []);
    var wide := ctx.(used := ctx.used.(seen := ctx.used.seen + NewFrom(c, 0)), owed := multiset(scan.1));
    ScanRequestSound(em, c, t, parent, 0, [], ctx);
    IdStays(em, scan.0, t, parent);
    TraceIdStays(em, scan.0, t);
    var llm := LlmCall(Identity(c));
    var withLlm := AddSpan(scan.0, t, LlmSpanOf(c, parent, FreshInput(c)));
    LlmSound(scan.0, c, t, parent, FreshInput(c), wide);
    var used := Used(ctx.used.traces, ctx.used.spoken + {Identity(c)}, ctx.used.seen + NewFrom(c, 0));
    IdStays(scan.0, withLlm, t, parent);
    assert scan.1[0..] == scan.1;
    LinkFeedsSound(withLlm, scan.1, t, llm, 0, Ctx(used, None, multiset(scan.1)));
    var fed := LinkFeeds(withLlm, scan.1, t, llm, 0);
    IdStays(withLlm, fed, t, parent);
    IdStays(withLlm, fed, t, llm);
    TraceIdStays(scan.0, withLlm, t);
    TraceIdStays(withLlm, fed, t);
    EmitToolsSound(fed, c, t, parent, c.Response().bucket.content, 0, used);
  }

  // ---------------------------------------------------------------- the four call shapes

  lemma MainCallSound(em: Em, c: Call, used: Used)
    requires Sound(em, Rest(used)) && Valid(em) && c.Valid() && c.chain != [] && Unused(c, used)
    ensures Sound(MainCall(em, c), Rest(After(used, c)))
  {
    hide Valid, Grows, Sound, OpenTrace, EmitConversation, Prompt, HasId, FreshFrom;
    var opens := c.session !in em.cur || Prompt(c).Some?;
    var started := if opens then OpenTrace(em, c, Prompt(c)) else em;
    CurrentTurn(started, c.session);
    var t := started.cur[c.session];
    var pend := Some(End(started.turns[t].traceId, LlmCall(Identity(c))));
    var ctx := Ctx(used.(traces := used.traces + {Identity(c)}), pend, multiset{});
    if opens {
      OpenTraceSound(em, c, Prompt(c), used);
    } else {
      Weaken(em, Rest(used), ctx);
    }
    RootHasId(started, t);
    EmitConversationSound(started, c, t, RootIdAt(started, t), ctx);
  }

  lemma SpawnAgentSound(em: Em, c: Call, task: Key, used: Used)
    requires Sound(em, Rest(used)) && Valid(em) && task in em.tools && task.session == c.session && ThreadKey(c) !in em.agents
    ensures Sound(SpawnAgent(em, c, task), Rest(used))
  {
    hide Valid, Grows, Sound, AddLink, AddAgent, HasId, EndExists;
    ToolPlace(em, task);
    var t := em.tools[task].turn;
    var id := em.turns[t].traceId;
    var l := Link(id, SubAgent(c.thread), id, ToolCall(task.id), Rejoin);
    var ctx := Rest(used).(pend := Some(End(id, SubAgent(c.thread))));
    PlaceHasId(em, em.tools[task], task.session, ToolSpan, ToolCall(task.id));
    IdEnds(em.turns, t, ToolCall(task.id));
    Weaken(em, Rest(used), ctx);
    AddLinkSound(em, t, l, ctx);
    var linked := AddLink(em, t, l);
    TraceIdStays(em, linked, t);
    IdStays(em, linked, t, ToolCall(task.id));
    AddAgentSound(linked, t, AgentSpanOf(c, ToolCall(task.id)), ThreadKey(c), ctx);
  }

  lemma EnsureAgentSound(em: Em, c: Call, used: Used)
    requires Sound(em, Rest(used)) && Valid(em) && c.chain != [] && Identity(c) !in used.traces
    ensures Sound(EnsureAgent(em, c), Rest(used.(traces := used.traces + {Identity(c)})))
  {
    hide Valid, Grows, Sound, SpawnAgent, AddAgent, EnsureTrace, HasId;
    var task := Key(c.session, Anchor(c));
    var wide := used.(traces := used.traces + {Identity(c)});
    if ThreadKey(c) in em.agents {
      Weaken(em, Rest(used), Rest(wide));
    } else if task in em.tools {
      SpawnAgentSound(em, c, task, used);
      Weaken(SpawnAgent(em, c, task), Rest(used), Rest(wide));
    } else {
      EnsureTraceSound(em, c, used);
      var host := EnsureTrace(em, c);
      CurrentTurn(host, c.session);
      var t := host.cur[c.session];
      RootHasId(host, t);
      AddAgentSound(host, t, AgentSpanOf(c, RootIdAt(host, t)), ThreadKey(c), Rest(wide));
    }
  }

  lemma ThreadCallSound(em: Em, c: Call, used: Used)
    requires Sound(em, Rest(used)) && Valid(em) && c.Valid() && c.chain != [] && Unused(c, used)
    ensures Sound(ThreadCall(em, c), Rest(After(used, c)))
  {
    hide Valid, Grows, Sound, EnsureAgent, EmitConversation, StretchAgent, HasId, FreshFrom;
    EnsureAgentSound(em, c, used);
    var hosted := EnsureAgent(em, c);
    AgentPlace(hosted, ThreadKey(c));
    var r := hosted.agents[ThreadKey(c)];
    PlaceHasId(hosted, r, c.session, AgentSpan, SubAgent(c.thread));
    EmitConversationSound(hosted, c, r.turn, SubAgent(c.thread), Rest(used.(traces := used.traces + {Identity(c)})));
    StretchSound(EmitConversation(hosted, c, r.turn, SubAgent(c.thread)), c, Rest(After(used, c)));
  }

  lemma CompactionCallSound(em: Em, c: Call, used: Used)
    requires Sound(em, Rest(used)) && Valid(em) && c.Valid() && c.chain != [] && Unused(c, used)
    ensures Sound(CompactionCall(em, c), Rest(After(used, c)))
  {
    hide Valid, Grows, Sound, EnsureTrace, AddSpan, LlmSpanOf, HasId, FreshFrom;
    EnsureTraceSound(em, c, used);
    var host := EnsureTrace(em, c);
    CurrentTurn(host, c.session);
    var t := host.cur[c.session];
    RootHasId(host, t);
    var wide := Rest(used.(traces := used.traces + {Identity(c)}));
    LlmSound(host, c, t, RootIdAt(host, t), [], wide);
    var added := AddSpan(host, t, LlmSpanOf(c, RootIdAt(host, t), []));
    var ctx := Rest(used.(traces := used.traces + {Identity(c)}, spoken := used.spoken + {Identity(c)}));
    SameShapeSound(added, CompactionCall(em, c), ctx);
    Weaken(CompactionCall(em, c), ctx, Rest(After(used, c)));
  }

  lemma ShadowCallSound(em: Em, c: Call, used: Used)
    requires Sound(em, Rest(used)) && Valid(em) && c.Valid() && c.chain != [] && Unused(c, used)
    ensures Sound(ShadowCall(em, c), Rest(After(used, c)))
  {
    hide Valid, Grows, Sound, EnsureTrace, AddSpan, AddLink, LlmSpanOf, FreshInput, TraceAt, HasId, FreshFrom, GoodLink;
    var key := Key(c.session, c.anchor);
    var spoken := used.(spoken := used.spoken + {Identity(c)});
    if key in em.tools {
      ToolPlace(em, key);
      var t := em.tools[key].turn;
      var id := em.turns[t].traceId;
      PlaceHasId(em, em.tools[key], key.session, ToolSpan, ToolCall(key.id));
      LlmSound(em, c, t, ToolCall(key.id), FreshInput(c), Rest(used));
      var added := AddSpan(em, t, LlmSpanOf(c, ToolCall(key.id), FreshInput(c)));
      TraceIdStays(em, added, t);
      ToolLinkGood(added, t, LlmCall(Identity(c)), key);
      AddLinkSound(added, t, Link(id, LlmCall(Identity(c)), id, ToolCall(key.id), Verdict), Rest(spoken));
      Weaken(ShadowCall(em, c), Rest(spoken), Rest(After(used, c)));
    } else {
      EnsureTraceSound(em, c, used);
      var host := EnsureTrace(em, c);
      CurrentTurn(host, c.session);
      var t := TraceAt(host, c);
      RootHasId(host, t);
      var wide := used.(traces := used.traces + {Identity(c)});
      SameShapeSound(host, CountOrphan(host), Rest(wide));
      LlmSound(CountOrphan(host), c, t, RootIdAt(host, t), FreshInput(c), Rest(wide));
      Weaken(ShadowCall(em, c), Rest(wide.(spoken := used.spoken + {Identity(c)})), Rest(After(used, c)));
    }
  }

  // ---------------------------------------------------------------- whole runs

  /** Two captured calls never share an identity or a first-captured hash. */
  ghost predicate Apart(c: Call, d: Call)
    requires c.Valid() && d.Valid()
  {
    c.chain == [] || d.chain == [] || (Identity(c) != Identity(d) && NewFrom(c, 0) !! NewFrom(d, 0))
  }

  /** What the deriver guarantees of its span sources: distinct call identities, and every
      hash new at one position of one call only. */
  ghost predicate Separate(calls: seq<Call>) {
    && (forall c | c in calls :: c.Valid() && FreshFrom(c, 0, {}))
    && (forall i, j | 0 <= i < j < |calls| :: Apart(calls[i], calls[j]))
  }

  ghost function UsedBy(calls: seq<Call>): Used
    requires Emittable(calls)
  {
    if calls == [] then Used({}, {}, {})
    else After(UsedBy(calls[..|calls| - 1]), calls[|calls| - 1])
  }

  lemma {:induction false} StillUnused(p: seq<Call>, c: Call)
    requires Emittable(p) && c.Valid() && c.chain != [] && FreshFrom(c, 0, {})
    requires forall d | d in p :: Apart(d, c)
    ensures Unused(c, UsedBy(p)) && NewFrom(c, 0) !! UsedBy(p).seen
  {
    if p != [] {
      var rest, d := p[..|p| - 1], p[|p| - 1];
      StillUnused(rest, c);
      assert Apart(d, c);
      var seen := UsedBy(p).seen;
      assert seen == UsedBy(rest).seen + NewFrom(d, 0);
      forall j | 0 <= j < |c.chain| - 1 && c.isNew[j] ensures c.chain[j].hash !in seen {
        assert c.chain[j].hash in NewFrom(c, 0);
      }
    }
  }

  lemma NextIsUnused(w: seq<Call>, p: seq<Call>, c: Call, rest: seq<Call>)
    requires Separate(w) && Emittable(w) && w == p + [c] + rest
    ensures c.Valid() && Emittable(p) && Unused(c, UsedBy(p))
  {
    assert w[|p|] == c;
    forall d | d in p ensures d.Valid() && d.chain != [] && Apart(d, c) {
      var i :| 0 <= i < |p| && p[i] == d;
      assert w[i] == d && Apart(w[i], w[|p|]);
    }
    StillUnused(p, c);
  }

  lemma TwoIndices<T>(s: seq<T>, x: T) returns (a: nat, b: nat)
    requires multiset(s)[x] >= 2
    ensures a < b < |s| && s[a] == x && s[b] == x
  {
    var n := |s| - 1;
    assert s == s[..n] + [s[n]];
    if s[n] == x {
      assert x in multiset(s[..n]);
      a :| 0 <= a < n && s[..n][a] == x;
      b := n;
    } else {
      a, b := TwoIndices(s[..n], x);
    }
  }

  /** Separation passes to any reordering and any selection. */
  lemma SubSeparate(calls: seq<Call>, w: seq<Call>)
    requires Separate(calls) && multiset(w) <= multiset(calls)
    ensures Separate(w)
  {
    forall c | c in w ensures c in calls {
      assert c in multiset(w);
    }
    forall i, j | 0 <= i < j < |w| ensures Apart(w[i], w[j]) {
      assert w[i] in multiset(w) && w[j] in multiset(w);
      if w[i] == w[j] {
        assert w == w[..j] + [w[j]] + w[j + 1..];
        assert w[..j][i] == w[i] && w[i] in multiset(w[..j]);
        assert multiset(w)[w[i]] >= 2;
        var a, b := TwoIndices(calls, w[i]);
        assert Apart(calls[a], calls[b]);
      } else {
        var a :| 0 <= a < |calls| && calls[a] == w[i];
        var b :| 0 <= b < |calls| && calls[b] == w[j];
        assert if a < b then Apart(calls[a], calls[b]) else Apart(calls[b], calls[a]);
      }
    }
  }

  lemma {:induction false} PhasesAreSelections(calls: seq<Call>)
    ensures multiset(Only(calls, IsSpine)) + multiset(Only(calls, IsThread)) + multiset(Only(calls, IsShadow))
         <= multiset(calls)
  {
    if calls != [] {
      var rest, c := calls[..|calls| - 1], calls[|calls| - 1];
      assert calls == rest + [c];
      PhasesAreSelections(rest);
    }
  }

  lemma {:induction false} UsedByOne(p: seq<Call>, c: Call)
    requires Emittable(p) && c.Valid() && c.chain != []
    ensures UsedBy(p + [c]) == After(UsedBy(p), c)
  {
    assert (p + [c])[..|p|] == p;
  }

  lemma EmptySound()
    ensures Sound(EMPTY, Rest(UsedBy([])))
  {
  }

  lemma {:induction false} SpineSound(calls: seq<Call>, n: nat)
    requires n <= |calls| && WellFormed(calls) && Separate(Only(calls, IsSpine))
    ensures Emittable(Only(calls[..n], IsSpine)) && Only(calls[..n], IsSpine) <= Only(calls, IsSpine)
    ensures Sound(Spine(calls, n), Rest(UsedBy(Only(calls[..n], IsSpine))))
  {
    hide Valid, Sound, MainCall, CompactionCall, Unused, After, Separate, UsedBy, Emittable, WellFormed;
    OnlyPrefix(calls, n);
    SpineIsEmittable(calls, n);
    SpineIsEmittable(calls, |calls|);
    assert calls[..|calls|] == calls;
    if n == 0 {
      EmptySound();
    } else {
      SpineUnfolds(calls, n);
      hide Only, Spine;
      SpineSound(calls, n - 1);
      var c := calls[n - 1];
      var p, em := Only(calls[..n - 1], IsSpine), Spine(calls, n - 1);
      if c.chain != [] && IsSpine(c) {
        SpineStep(em, p, c, Only(calls, IsSpine));
      }
    }
  }

  lemma SpineIsEmittable(calls: seq<Call>, n: nat)
    requires n <= |calls| && WellFormed(calls)
    ensures Emittable(Only(calls[..n], IsSpine))
  {
    hide Only;
  }

  lemma SpineUnfolds(calls: seq<Call>, n: nat)
    requires 0 < n <= |calls| && WellFormed(calls)
    ensures var c, em := calls[n - 1], Spine(calls, n - 1);
            var takes := c.chain != [] && IsSpine(c);
            && Only(calls[..n], IsSpine) == (if takes then Only(calls[..n - 1], IsSpine) + [c] else Only(calls[..n - 1], IsSpine))
            && c.Valid()
            && Spine(calls, n) == if !takes then em else if c.kind == Main then MainCall(em, c) else CompactionCall(em, c)
  {
    hide Valid, MainCall, CompactionCall;
    assert calls[..n][..n - 1] == calls[..n - 1];
  }

  /** One spine call, next in a separate list w after the calls p. */
  lemma SpineStep(em: Em, p: seq<Call>, c: Call, w: seq<Call>)
    requires Valid(em) && Separate(w) && Emittable(w) && Emittable(p) && p + [c] <= w && IsSpine(c)
    requires Sound(em, Rest(UsedBy(p)))
    ensures c.Valid() && c.chain != [] && Emittable(p + [c])
    ensures Sound(if c.kind == Main then MainCall(em, c) else CompactionCall(em, c), Rest(UsedBy(p + [c])))
  {
    hide Valid, Sound, MainCall, CompactionCall, Unused, After, Separate;
    assert c == w[|p|] && c in w;
    assert w == p + [c] + w[|p| + 1..];
    NextIsUnused(w, p, c, w[|p| + 1..]);
    UsedByOne(p, c);
    if c.kind == Main { MainCallSound(em, c, UsedBy(p)); } else { CompactionCallSound(em, c, UsedBy(p)); }
  }

  lemma {:induction false} OnlyPrefix(calls: seq<Call>, n: nat)
    requires n <= |calls|
    ensures Only(calls[..n], IsSpine) <= Only(calls, IsSpine)
  {
    if n == |calls| {
      assert calls[..n] == calls;
    } else {
      var rest := calls[..|calls| - 1];
      assert rest[..n] == calls[..n];
      OnlyPrefix(rest, n);
    }
  }

  lemma {:induction false} DegradeSound(em: Em, o: seq<Call>, i: nat, p: seq<Call>)
    requires Valid(em) && Emittable(o) && Emittable(p) && i <= |o|
    requires Separate(p + o[i..]) && Sound(em, Rest(UsedBy(p)))
    ensures Emittable(p + o[i..]) && Sound(Degrade(em, o, i), Rest(UsedBy(p + o[i..])))
    decreases |o| - i
  {
    hide Valid, Grows, Sound, ThreadCall, Degrade, Unused, After, Separate;
    assert Emittable(p + o[i..]);
    if i == |o| {
      ThreadFixpoint.DegradeEnds(em, o);
      assert p + o[i..] == p;
    } else {
      var c := o[i];
      assert p + o[i..] == p + [c] + o[i + 1..];
      NextIsUnused(p + o[i..], p, c, o[i + 1..]);
      ThreadFixpoint.DegradeStep(em, o, i);
      ThreadCallSound(em, c, UsedBy(p));
      UsedByOne(p, c);
      DegradeSound(ThreadCall(em, c), o, i + 1, p + [c]);
    }
  }

  lemma {:induction false} ShadowsSound(em: Em, o: seq<Call>, i: nat, p: seq<Call>)
    requires Valid(em) && Emittable(o) && Emittable(p) && i <= |o|
    requires Separate(p + o[i..]) && Sound(em, Rest(UsedBy(p)))
    ensures Emittable(p + o[i..]) && Sound(Shadows(em, o, i), Rest(UsedBy(p + o[i..])))
    decreases |o| - i
  {
    hide Valid, Grows, Sound, ShadowCall, Unused, After, Separate;
    assert Emittable(p + o[i..]);
    if i == |o| {
      assert p + o[i..] == p;
    } else {
      var c := o[i];
      assert p + o[i..] == p + [c] + o[i + 1..];
      NextIsUnused(p + o[i..], p, c, o[i + 1..]);
      ShadowCallSound(em, c, UsedBy(p));
      UsedByOne(p, c);
      ShadowsSound(ShadowCall(em, c), o, i + 1, p + [c]);
    }
  }

  /** Whatever order the phases impose, the finished walk is sound. */
  lemma WalkSound(calls: seq<Call>)
    requires Separate(calls)
    ensures WellFormed(calls) && exists used :: Sound(Walk(calls), Rest(used))
  {
    hide Valid, Grows, Sound, Spine, Degrade, Shadows, Only, Separate, SpanModel.ThreadPhase, UsedBy;
    assert WellFormed(calls) by { SeparateIsWellFormed(calls); }
    var spine := Only(calls, IsSpine);
    var threads, shadows := Only(calls, IsThread), Only(calls, IsShadow);
    var em := Spine(calls, |calls|);
    ThreadFixpoint.EveryThreadCallOnce(em, threads);
    var o := ThreadFixpoint.Order(em, threads) + Fixpoint(em, threads).1;
    PhasesAreSelections(calls);
    SubSeparate(calls, spine + o + shadows);
    SubSeparate(spine + o + shadows, spine);
    SubSeparate(spine + o + shadows, spine + o);
    assert calls[..|calls|] == calls;
    SpineSound(calls, |calls|);
    assert o[0..] == o && shadows[0..] == shadows;
    DegradeSound(em, o, 0, spine);
    ShadowsSound(Degrade(em, o, 0), shadows, 0, spine + o);
  }

  lemma SeparateIsWellFormed(calls: seq<Call>)
    requires Separate(calls)
    ensures WellFormed(calls)
  {
  }

  /** A trace opened while a seam is armed closes it: the trace is marked, the seam is
      spent, and the seam link runs from the compaction's span to the llm span this very
      call emits into the new trace. */
  lemma SeamClosesOnOpener(em: Em, c: Call, used: Used)
    requires Sound(em, Rest(used)) && Valid(em) && c.Valid() && c.chain != [] && Unused(c, used)
    requires c.session in em.seam && Prompt(c).Some?
    ensures var started := OpenTrace(em, c, Prompt(c));
            && started.turns[|em.turns|].synthetic == PostCompaction && c.session !in started.seam
            && started.cross == em.cross + [SeamLink(em, c)]
            && EndExists(MainCall(em, c).turns, End(SeamLink(em, c).toTrace, SeamLink(em, c).toSpan))
  {
    hide Grows, FreshFrom, EmitConversation, Prompt, Linked, Trees, Fed, NamedTurn, After;
    SeamPlace(em, c.session);
    var from := em.seam[c.session];
    assert em.turns[from.turn].traceId != Trace(Identity(c)) by {
      assert NamedTurn(em, from.turn, em.turns[from.turn], used);
      OpenerIsUsed(em, from.turn, used);
    }
    MainCallSound(em, c, used);
    var started := OpenTrace(em, c, Prompt(c));
    var r := MainCall(em, c);
    MainKeepsCross(em, c);
    assert r.cross[|em.cross|] == SeamLink(em, c);
    SoundCross(r, After(used, c), |em.cross|);
  }

  lemma OpenerIsUsed(em: Em, t: nat, used: Used)
    requires t < |em.turns| && NamedTurn(em, t, em.turns[t], used)
    ensures em.turns[t].traceId.opener in used.traces
  {
  }

  lemma MainKeepsCross(em: Em, c: Call)
    requires Valid(em) && c.Valid() && c.chain != [] && Prompt(c).Some?
    ensures OpenTrace(em, c, Prompt(c)).cross <= MainCall(em, c).cross
  {
    hide Valid, OpenTrace, EmitConversation, Prompt;
  }

  lemma SoundCross(em: Em, used: Used, i: nat)
    requires Sound(em, Rest(used)) && i < |em.cross|
    ensures EndExists(em.turns, End(em.cross[i].toTrace, em.cross[i].toSpan))
  {
    assert LinkOk(em.turns, em.cross[i], None);
  }

  // ---------------------------------------------------------------- what soundness says

  /** Every trace is a tree with its root first and parents before children. */
  lemma TracesAreTrees(calls: seq<Call>, t: nat)
    requires Separate(calls) && WellFormed(calls) && t < |Walk(calls).turns|
    ensures var spans := Walk(calls).turns[t].spans;
            && spans != [] && spans[0].fixed.parent == None && spans[0].fixed.kind == AgentSpan
            && (forall i | 0 < i < |spans| ::
                  spans[i].fixed.parent.Some? && exists j :: 0 <= j < i && spans[j].fixed.id == spans[i].fixed.parent.value)
            && (forall i, j | 0 <= i < j < |spans| :: spans[i].fixed.id != spans[j].fixed.id)
  {
    hide Walk, Valid, Linked, Fed, Separate, NamedTurn;
    WalkSound(calls);
    var spans := Walk(calls).turns[t].spans;
    assert Rooted(Walk(calls).turns[t]);
    forall i | 0 < i < |spans|
      ensures spans[i].fixed.parent.Some? && exists j :: 0 <= j < i && spans[j].fixed.id == spans[i].fixed.parent.value
    {
      assert ParentBefore(spans, i);
    }
  }

  /** Trace ids identify; a link kept on a trace has both ends in it, and a link kept on
      the set has its ends in two different traces. */
  lemma LinksHaveEnds(calls: seq<Call>)
    requires Separate(calls) && WellFormed(calls)
    ensures var em := Walk(calls);
            && (forall t, u | 0 <= t < u < |em.turns| :: em.turns[t].traceId != em.turns[u].traceId)
            && (forall t, i | 0 <= t < |em.turns| && 0 <= i < |em.turns[t].links| ::
                  var l := em.turns[t].links[i];
                  EndIn(em.turns[t], End(l.fromTrace, l.fromSpan)) && EndIn(em.turns[t], End(l.toTrace, l.toSpan)))
            && (forall i | 0 <= i < |em.cross| ::
                  var l := em.cross[i];
                  l.fromTrace != l.toTrace && EndExists(em.turns, End(l.fromTrace, l.fromSpan))
                  && EndExists(em.turns, End(l.toTrace, l.toSpan)))
  {
    hide Walk, Valid, Trees, Fed, Separate, NamedTurn, UniqueIds, HasId;
    WalkSound(calls);
    var em := Walk(calls);
    forall t, i | 0 <= t < |em.turns| && 0 <= i < |em.turns[t].links|
      ensures var l := em.turns[t].links[i];
              EndIn(em.turns[t], End(l.fromTrace, l.fromSpan)) && EndIn(em.turns[t], End(l.toTrace, l.toSpan))
    {
      var l := em.turns[t].links[i];
      assert LinkOk(em.turns, l, None);
      EndInOwn(em.turns, t, End(l.fromTrace, l.fromSpan));
      EndInOwn(em.turns, t, End(l.toTrace, l.toSpan));
    }
    forall i | 0 <= i < |em.cross| ensures LinkOk(em.turns, em.cross[i], None) {
    }
  }

  lemma EndInOwn(turns: seq<Turn>, t: nat, e: End)
    requires DistinctTraces(turns) && t < |turns| && turns[t].traceId == e.trace && EndExists(turns, e)
    ensures EndIn(turns[t], e)
  {
    var u :| 0 <= u < |turns| && EndIn(turns[u], e);
    assert u == t;
  }

  /** A (session, tool_use id) names at most one tool span, and exactly one feeds link
      leaves it if and only if it has output. */
  lemma ToolsFeedOnce(calls: seq<Call>, t: nat, i: nat, u: nat, j: nat)
    requires Separate(calls) && WellFormed(calls)
    requires var em := Walk(calls);
             && t < |em.turns| && i < |em.turns[t].spans| && em.turns[t].spans[i].fixed.kind == ToolSpan
             && u < |em.turns| && j < |em.turns[u].spans| && em.turns[u].spans[j].fixed.kind == ToolSpan
    ensures var em := Walk(calls);
            && (em.turns[t].session == em.turns[u].session ==>
                  em.turns[t].spans[i].fixed.id == em.turns[u].spans[j].fixed.id ==> t == u && i == j)
            && FeedsFrom(em, End(em.turns[t].traceId, em.turns[t].spans[i].fixed.id))
               == (if em.turns[t].spans[i].output != [] then 1 else 0)
  {
    hide Walk, Separate, Trees, Linked, UniqueIds, FeedsFrom, DistinctTraces;
    WalkSound(calls);
    var em := Walk(calls);
    var used :| Sound(em, Rest(used));
    assert NamedTurn(em, t, em.turns[t], used) && NamedTurn(em, u, em.turns[u], used);
    assert NamedSpan(em, t, i, em.turns[t].spans[i].fixed, em.turns[t].session, used);
    assert NamedSpan(em, u, j, em.turns[u].spans[j].fixed, em.turns[u].session, used);
    var k := Key(em.turns[t].session, em.turns[t].spans[i].fixed.id.toolUse);
    assert FedTool(em, k, multiset{});
  }

  /** The synthetic counter equals the number of traces no human prompt opened. */
  lemma SyntheticIsCounted(calls: seq<Call>)
    requires Separate(calls) && WellFormed(calls)
    ensures Walk(calls).synthetic == CountSynthetic(Walk(calls).turns)
  {
    hide Walk, Separate, Valid, Trees, Names, Linked, Fed;
    WalkSound(calls);
  }
}
