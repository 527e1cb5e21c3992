/** Nothing is left out of the emitted traces: every event, emission, delivered result,
    thread, verdict and orphan of the calls shows. */
module SpanPresence {
  import opened Llm
  import opened DeriveModel
  import opened SpanModel
  import opened SpanTotals
  import opened SpanOrigins
  import SpanPrompts
  import SpanQuiet
  import ThreadFixpoint
  import WalkShape

  // ---------------------------------------------------------------- what is there

  ghost predicate HasSpan(turns: seq<Turn>, s: Session, id: SpanId) {
    exists t, k :: 0 <= t < |turns| && 0 <= k < |turns[t].spans| && turns[t].session == s && turns[t].spans[k].fixed.id == id
  }

  ghost predicate IsLink(l: Link, from: SpanId, to: SpanId, kind: LinkKind) {
    l.fromSpan == from && l.toSpan == to && l.kind == kind
  }

  ghost predicate HasLink(em: Em, from: SpanId, to: SpanId, kind: LinkKind) {
    || (exists l :: l in em.cross && IsLink(l, from, to, kind))
    || (exists t, l :: 0 <= t < |em.turns| && l in em.turns[t].links && IsLink(l, from, to, kind))
  }

  lemma SpansStay(a: Em, b: Em, s: Session, id: SpanId)
    requires Grows(a, b) && HasSpan(a.turns, s, id)
    ensures HasSpan(b.turns, s, id)
  {
    var t, k :| 0 <= t < |a.turns| && 0 <= k < |a.turns[t].spans| && a.turns[t].session == s && a.turns[t].spans[k].fixed.id == id;
    assert TurnGrows(a.turns[t], b.turns[t]);
    assert SpanGrows(a.turns[t].spans[k], b.turns[t].spans[k]);
  }

  lemma LinksStay(a: Em, b: Em, from: SpanId, to: SpanId, kind: LinkKind)
    requires Grows(a, b) && HasLink(a, from, to, kind)
    ensures HasLink(b, from, to, kind)
  {
    if l :| l in a.cross && IsLink(l, from, to, kind) {
      assert l in b.cross;
    } else {
      var t, l :| 0 <= t < |a.turns| && l in a.turns[t].links && IsLink(l, from, to, kind);
      assert TurnGrows(a.turns[t], b.turns[t]);
      assert l in b.turns[t].links;
    }
  }

  /** What a call must have left behind once it was emitted. */
  ghost predicate Left(em: Em, c: Call)
    requires c.chain != []
  {
    && (Talks(c) ==>
          && (forall i | Brings(c, i) :: HasSpan(em.turns, c.session, EventOf(c.chain[i].hash)))
          && (forall b | EmitsBlock(c, b) :: HasLink(em, LlmCall(Identity(c)), ToolCall(b.toolUseId), Emits))
          && (c.thread != "" ==> ThreadKey(c) in em.agents))
    && (IsShadow(c) && Key(c.session, c.anchor) in em.tools ==> HasLink(em, LlmCall(Identity(c)), ToolCall(c.anchor), Verdict))
  }

  lemma LeftStays(a: Em, b: Em, c: Call)
    requires Grows(a, b) && c.chain != [] && Left(a, c) && (IsShadow(c) ==> b.tools.Keys == a.tools.Keys)
    ensures Left(b, c)
  {
    hide HasSpan, HasLink, Grows, Talks, Brings, EmitsBlock;
    if Talks(c) {
      forall i | Brings(c, i) ensures HasSpan(b.turns, c.session, EventOf(c.chain[i].hash)) {
        SpansStay(a, b, c.session, EventOf(c.chain[i].hash));
      }
      forall x | EmitsBlock(c, x) ensures HasLink(b, LlmCall(Identity(c)), ToolCall(x.toolUseId), Emits) {
        LinksStay(a, b, LlmCall(Identity(c)), ToolCall(x.toolUseId), Emits);
      }
      if c.thread != "" { AgentsStay(a, b, ThreadKey(c)); }
    }
    if IsShadow(c) && Key(c.session, c.anchor) in b.tools.Keys {
      LinksStay(a, b, LlmCall(Identity(c)), ToolCall(c.anchor), Verdict);
    }
  }

  lemma AgentsStay(a: Em, b: Em, k: Key)
    requires Grows(a, b) && k in a.agents
    ensures k in b.agents
  {
  }

  // ---------------------------------------------------------------- one conversation

  lemma AddedSpan(em: Em, t: nat, sp: Span)
    requires Valid(em) && t < |em.turns|
    ensures HasSpan(AddSpan(em, t, sp).turns, em.turns[t].session, sp.fixed.id)
  {
    hide Valid, Grows;
    var r := AddSpan(em, t, sp);
    assert Points(r.turns, Ref(t, |em.turns[t].spans|), em.turns[t].session, sp.fixed.kind, sp.fixed.id);
  }

  lemma AddedLink(em: Em, host: nat, l: Link)
    requires Valid(em) && host < |em.turns|
    ensures HasLink(AddLink(em, host, l), l.fromSpan, l.toSpan, l.kind)
  {
    hide Valid, Grows;
    var r := AddLink(em, host, l);
    assert IsLink(l, l.fromSpan, l.toSpan, l.kind);
    if l.fromTrace == l.toTrace {
      assert l in r.turns[host].links;
    } else {
      assert l in r.cross;
    }
  }

  lemma BringsMeans(c: Call, i: int)
    requires c.Valid() && c.chain != []
    ensures Brings(c, i) <==> 0 <= i < |c.chain| - 1 && c.isNew[i] && i > Boundary(c)
                              && (c.chain[i].kind.Injected? || c.chain[i].bucket.role == System)
  {
    SpanPrompts.LastFreshMeans(c, |c.chain| - 1);
  }

  lemma ScanNodeShows(em: Em, c: Call, t: nat, parent: SpanId, i: nat, feeds: seq<Key>)
    requires Valid(em) && c.Valid() && i < |c.chain| && t < |em.turns| && em.turns[t].session == c.session
    requires forall k | k in feeds :: k in em.tools && k.session == c.session
    requires Brings(c, i)
    ensures HasSpan(ScanNode(em, c, t, parent, i, feeds).0.turns, c.session, EventOf(c.chain[i].hash))
  {
    hide Valid, Grows, AddSpan, ScanResults, Boundary, HasSpan, Brings;
    BringsMeans(c, i);
    var n := c.chain[i];
    AddedSpan(em, t, EventSpanOf(c, parent, n.kind, n));
    AddedSpan(em, t, EventSpanOf(c, parent, Injected("system-insert"), n));
  }

  lemma {:induction false} ScanRequestShows(em: Em, c: Call, t: nat, parent: SpanId, i: nat, feeds: seq<Key>, at: nat)
    requires Valid(em) && c.Valid() && i <= at < |c.chain| - 1 && t < |em.turns| && em.turns[t].session == c.session
    requires forall k | k in feeds :: k in em.tools && k.session == c.session
    requires Brings(c, at)
    ensures HasSpan(ScanRequest(em, c, t, parent, i, feeds).0.turns, c.session, EventOf(c.chain[at].hash))
    decreases |c.chain| - i
  {
    hide Valid, Grows, ScanNode, HasSpan, Brings;
    var n := ScanNode(em, c, t, parent, i, feeds);
    if i == at {
      ScanNodeShows(em, c, t, parent, i, feeds);
      SpansStay(n.0, ScanRequest(n.0, c, t, parent, i + 1, n.1).0, c.session, EventOf(c.chain[at].hash));
    } else {
      StaysTurn(em, n.0, t);
      ScanRequestShows(n.0, c, t, parent, i + 1, n.1, at);
    }
  }

  lemma EmitToolLinks(em: Em, c: Call, t: nat, parent: SpanId, b: ContentBlock)
    requires Valid(em) && t < |em.turns| && em.turns[t].session == c.session && c.chain != [] && Emission(b)
    ensures HasLink(EmitTool(em, c, t, parent, b), LlmCall(Identity(c)), ToolCall(b.toolUseId), Emits)
  {
    hide Valid, Grows, AddLink, AddTool, HasLink;
    var k := Key(c.session, b.toolUseId);
    var id := em.turns[t].traceId;
    var llm := LlmCall(Identity(c));
    if k in em.tools {
      ToolPlace(em, k);
      AddedLink(em, t, Link(id, llm, em.turns[em.tools[k].turn].traceId, ToolCall(k.id), Emits));
    } else {
      AddedLink(AddTool(em, t, ToolSpanOf(c, parent, b), k), t, Link(id, llm, id, ToolCall(k.id), Emits));
    }
  }

  lemma {:induction false} EmitToolsLink(em: Em, c: Call, t: nat, parent: SpanId, blocks: seq<ContentBlock>, j: nat, at: nat)
    requires Valid(em) && t < |em.turns| && em.turns[t].session == c.session && c.chain != [] && j <= at < |blocks|
    requires Emission(blocks[at])
    ensures HasLink(EmitTools(em, c, t, parent, blocks, j), LlmCall(Identity(c)), ToolCall(blocks[at].toolUseId), Emits)
    decreases |blocks| - j
  {
    hide Valid, Grows, EmitTool, HasLink;
    var e := EmitTool(em, c, t, parent, blocks[j]);
    StaysTurn(em, e, t);
    if j == at {
      EmitToolLinks(em, c, t, parent, blocks[j]);
      LinksStay(e, EmitTools(e, c, t, parent, blocks, j + 1), LlmCall(Identity(c)), ToolCall(blocks[at].toolUseId), Emits);
    } else {
      EmitToolsLink(e, c, t, parent, blocks, j + 1, at);
    }
  }

  lemma ConversationShows(em: Em, c: Call, t: nat, parent: SpanId)
    requires Valid(em) && c.Valid() && c.chain != [] && t < |em.turns| && em.turns[t].session == c.session
    ensures var r := EmitConversation(em, c, t, parent);
            && (forall i | Brings(c, i) :: HasSpan(r.turns, c.session, EventOf(c.chain[i].hash)))
            && (forall b | EmitsBlock(c, b) :: HasLink(r, LlmCall(Identity(c)), ToolCall(b.toolUseId), Emits))
  {
    hide Valid, Grows, ScanRequest, LlmSpanOf, AddSpan, LinkFeeds, EmitTools, FreshInput, HasSpan, HasLink, Brings;
    var scan := ScanRequest(em, c, t, parent, 0, []);
    var withLlm := AddSpan(scan.0, t, LlmSpanOf(c, parent, FreshInput(c)));
    var fed := LinkFeeds(withLlm, scan.1, t, LlmCall(Identity(c)), 0);
    var blocks := c.Response().bucket.content;
    StaysTurn(em, scan.0, t);
    StaysTurn(scan.0, withLlm, t);
    StaysTurn(withLlm, fed, t);
    var r := EmitTools(fed, c, t, parent, blocks, 0);
    GrowsTransitive(scan.0, withLlm, fed);
    GrowsTransitive(scan.0, fed, r);
    forall i | Brings(c, i) ensures HasSpan(r.turns, c.session, EventOf(c.chain[i].hash)) {
      BringsMeans(c, i);
      ScanRequestShows(em, c, t, parent, 0, [], i);
      SpansStay(scan.0, r, c.session, EventOf(c.chain[i].hash));
    }
    forall b | EmitsBlock(c, b) ensures HasLink(r, LlmCall(Identity(c)), ToolCall(b.toolUseId), Emits) {
      var at :| 0 <= at < |blocks| && blocks[at] == b;
      EmitToolsLink(fed, c, t, parent, blocks, 0, at);
    }
  }

  // ---------------------------------------------------------------- the call shapes

  lemma MainLeaves(em: Em, c: Call)
    requires Valid(em) && c.Valid() && c.chain != [] && c.kind == Main && c.thread == ""
    ensures Left(MainCall(em, c), c)
  {
    hide Valid, Grows, OpenTrace, EmitConversation, SpanModel.Prompt, HasSpan, HasLink, Brings, EmitsBlock;
    var started :=
      if c.session !in em.cur || SpanModel.Prompt(c).Some? then OpenTrace(em, c, SpanModel.Prompt(c)) else em;
    CurrentTurn(started, c.session);
    var t := started.cur[c.session];
    ConversationShows(started, c, t, RootIdAt(started, t));
  }

  lemma ThreadLeaves(em: Em, c: Call)
    requires Valid(em) && c.Valid() && c.chain != [] && IsThread(c)
    ensures Left(ThreadCall(em, c), c)
  {
    hide Valid, Grows, EnsureAgent, EmitConversation, StretchAgent, HasSpan, HasLink, Brings, EmitsBlock;
    var hosted := EnsureAgent(em, c);
    AgentPlace(hosted, ThreadKey(c));
    var t := hosted.agents[ThreadKey(c)].turn;
    ConversationShows(hosted, c, t, SubAgent(c.thread));
    var spoken := EmitConversation(hosted, c, t, SubAgent(c.thread));
    var r := StretchAgent(spoken, c);
    forall i | Brings(c, i) ensures HasSpan(r.turns, c.session, EventOf(c.chain[i].hash)) {
      SpansStay(spoken, r, c.session, EventOf(c.chain[i].hash));
    }
    forall b | EmitsBlock(c, b) ensures HasLink(r, LlmCall(Identity(c)), ToolCall(b.toolUseId), Emits) {
      LinksStay(spoken, r, LlmCall(Identity(c)), ToolCall(b.toolUseId), Emits);
    }
  }

  lemma ShadowLeaves(em: Em, c: Call)
    requires Valid(em) && c.Valid() && c.chain != [] && IsShadow(c)
    ensures Left(ShadowCall(em, c), c)
    ensures ShadowCall(em, c).orphans == em.orphans + (if Key(c.session, c.anchor) in em.tools then 0 else 1)
  {
    hide Valid, Grows, EnsureTrace, AddSpan, AddLink, LlmSpanOf, FreshInput, TraceAt, HasLink;
    var key := Key(c.session, c.anchor);
    if key in em.tools {
      ToolPlace(em, key);
      var t := em.tools[key].turn;
      var id := em.turns[t].traceId;
      var added := AddSpan(em, t, LlmSpanOf(c, ToolCall(key.id), FreshInput(c)));
      AddedLink(added, t, Link(id, LlmCall(Identity(c)), id, ToolCall(key.id), Verdict));
      assert ShadowCall(em, c).tools == em.tools;
    } else {
      EnsureOrphans(em, c);
    }
  }

  lemma EnsureOrphans(em: Em, c: Call)
    requires Valid(em) && c.chain != []
    ensures EnsureTrace(em, c).orphans == em.orphans
  {
    hide Valid, Grows;
  }

  // ---------------------------------------------------------------- the phases

  ghost predicate AllLeft(em: Em, calls: seq<Call>) {
    forall c | c in calls :: c.chain != [] ==> Left(em, c)
  }

  lemma AllLeftStays(a: Em, b: Em, calls: seq<Call>)
    requires Grows(a, b) && AllLeft(a, calls) && forall c | c in calls :: c.chain == [] || !IsShadow(c) || b.tools == a.tools
    ensures AllLeft(b, calls)
  {
    hide Grows, Left;
    forall c | c in calls && c.chain != [] ensures Left(b, c) {
      LeftStays(a, b, c);
    }
  }

  lemma StepLeaves(em: Em, c: Call)
    requires Valid(em) && c.Valid() && c.chain != [] && IsSpine(c)
    ensures Left(WalkShape.SpineStep(em, c), c) && Grows(em, WalkShape.SpineStep(em, c))
  {
    hide Valid, Grows, MainCall, CompactionCall, HasSpan, HasLink;
    if c.kind == Main { MainLeaves(em, c); }
  }

  lemma {:induction false} SpineLeaves(calls: seq<Call>, n: nat, c: Call)
    requires WellFormed(calls) && n <= |calls| && c in calls[..n] && c.chain != [] && IsSpine(c)
    ensures Left(Spine(calls, n), c)
  {
    hide Valid, Grows, Spine, Left, WalkShape.SpineStep;
    WalkShape.SpineUnfolds(calls, n - 1);
    var em, last := Spine(calls, n - 1), calls[n - 1];
    if c == last {
      StepLeaves(em, last);
    } else {
      assert c in calls[..n - 1];
      SpineLeaves(calls, n - 1, c);
      SpineStepGrows(em, last);
      LeftStays(em, Spine(calls, n), c);
    }
  }

  lemma SpineStepGrows(em: Em, c: Call)
    requires Valid(em) && c.Valid()
    ensures Grows(em, WalkShape.SpineStep(em, c))
  {
    hide Valid, Grows, MainCall, CompactionCall;
    GrowsReflexive(em);
  }

  lemma {:induction false} DegradeLeaves(em: Em, pending: seq<Call>, i: nat)
    requires Valid(em) && Emittable(pending) && i <= |pending| && forall c | c in pending :: IsThread(c)
    ensures forall c | c in pending[i..] :: c.chain != [] && Left(Degrade(em, pending, i), c)
    decreases |pending| - i
  {
    hide Valid, Grows, ThreadCall, Left;
    if i < |pending| {
      var e := ThreadCall(em, pending[i]);
      assert pending[i] in pending;
      ThreadLeaves(em, pending[i]);
      DegradeLeaves(e, pending, i + 1);
      LeftStays(e, Degrade(e, pending, i + 1), pending[i]);
      assert pending[i..] == [pending[i]] + pending[i + 1..];
    }
  }

  /** The shadow calls no tool span takes in. */
  ghost function Orphans(calls: seq<Call>, tools: set<Key>): nat {
    if calls == [] then 0
    else
      var c := calls[|calls| - 1];
      Orphans(calls[..|calls| - 1], tools) + (if Key(c.session, c.anchor) in tools then 0 else 1)
  }

  lemma {:induction false} OrphansCons(c: Call, calls: seq<Call>, tools: set<Key>)
    ensures Orphans([c] + calls, tools) == (if Key(c.session, c.anchor) in tools then 0 else 1) + Orphans(calls, tools)
  {
    if calls == [] {
      assert [c] + calls == [c] && [c][..0] == [];
    } else {
      assert ([c] + calls)[..|calls|] == [c] + calls[..|calls| - 1];
      OrphansCons(c, calls[..|calls| - 1], tools);
    }
  }

  lemma {:induction false} ShadowsLeave(em: Em, calls: seq<Call>, i: nat)
    requires Valid(em) && Emittable(calls) && i <= |calls| && forall c | c in calls :: IsShadow(c)
    ensures var r := Shadows(em, calls, i);
            r.tools == em.tools && r.orphans == em.orphans + Orphans(calls[i..], em.tools.Keys)
            && forall c | c in calls[i..] :: c.chain != [] && Left(r, c)
    decreases |calls| - i
  {
    hide Valid, Grows, ShadowCall, Left;
    if i < |calls| {
      var c := calls[i];
      var e := ShadowCall(em, c);
      assert c in calls;
      ShadowLeaves(em, c);
      ShadowsLeave(e, calls, i + 1);
      LeftStays(e, Shadows(e, calls, i + 1), c);
      assert calls[i..] == [c] + calls[i + 1..];
      OrphansCons(c, calls[i + 1..], em.tools.Keys);
    }
  }

  // ---------------------------------------------------------------- delivered results

  ghost predicate HasOutput(em: Em, k: Key) {
    && k in em.tools && em.tools[k].turn < |em.turns| && em.tools[k].span < |em.turns[em.tools[k].turn].spans|
    && SpanAt(em, em.tools[k]).output != []
  }

  lemma OutputStays(a: Em, b: Em, k: Key)
    requires Grows(a, b) && HasOutput(a, k)
    ensures HasOutput(b, k)
  {
    var r := a.tools[k];
    assert TurnGrows(a.turns[r.turn], b.turns[r.turn]);
    assert SpanGrows(a.turns[r.turn].spans[r.span], b.turns[r.turn].spans[r.span]);
  }

  lemma FillFills(em: Em, s: Session, b: ContentBlock, at: int)
    requires Valid(em)
    ensures var k := Key(s, if b.toolResultId != "" then b.toolResultId else b.toolUseId);
            k in em.tools ==> HasOutput(Fill(em, s, b, at).0, k)
  {
    hide Grows, TurnsGrow;
    var k := Key(s, if b.toolResultId != "" then b.toolResultId else b.toolUseId);
    if k in em.tools { ToolPlace(em, k); }
  }

  lemma {:induction false} ScanResultsFill(em: Em, s: Session, blocks: seq<ContentBlock>, at: int, j: nat, feeds: seq<Key>, n: nat)
    requires Valid(em) && j <= n < |blocks| && blocks[n].kind == ToolResult
    requires forall k | k in feeds :: k in em.tools && k.session == s
    ensures var k := Key(s, if blocks[n].toolResultId != "" then blocks[n].toolResultId else blocks[n].toolUseId);
            k in em.tools ==> HasOutput(ScanResults(em, s, blocks, at, j, feeds).0, k)
    decreases |blocks| - j
  {
    hide Valid, Grows, Fill, HasOutput;
    var k := Key(s, if blocks[n].toolResultId != "" then blocks[n].toolResultId else blocks[n].toolUseId);
    if blocks[j].kind != ToolResult {
      ScanResultsFill(em, s, blocks, at, j + 1, feeds, n);
    } else {
      var f := Fill(em, s, blocks[j], at);
      var more := if f.1.Some? then feeds + [f.1.value] else feeds;
      FeedsStay(em, f.0, more, s);
      if j == n {
        FillFills(em, s, blocks[j], at);
        if k in em.tools { OutputStays(f.0, ScanResults(f.0, s, blocks, at, j + 1, more).0, k); }
      } else {
        ScanResultsFill(f.0, s, blocks, at, j + 1, more, n);
        ToolsStay(em, f.0, k);
      }
    }
  }

  lemma ToolsStay(a: Em, b: Em, k: Key)
    requires Grows(a, b)
    ensures k in a.tools ==> k in b.tools
  {
  }

  lemma ScanNodeFills(em: Em, c: Call, t: nat, parent: SpanId, i: nat, feeds: seq<Key>, b: ContentBlock, u: string)
    requires Valid(em) && c.Valid() && i < |c.chain| && t < |em.turns| && Delivers(c, i, b, u)
    requires forall k | k in feeds :: k in em.tools && k.session == c.session
    requires Key(c.session, u) in em.tools
    ensures HasOutput(ScanNode(em, c, t, parent, i, feeds).0, Key(c.session, u))
  {
    hide Valid, Grows, AddSpan, ScanResults, Boundary, HasOutput;
    var blocks := c.chain[i].bucket.content;
    var n :| 0 <= n < |blocks| && blocks[n] == b;
    ScanResultsFill(em, c.session, blocks, c.chain[i].capturedAt, 0, feeds, n);
  }

  lemma {:induction false} ScanRequestFills(em: Em, c: Call, t: nat, parent: SpanId, i: nat, feeds: seq<Key>, at: nat,
                                            b: ContentBlock, u: string)
    requires Valid(em) && c.Valid() && i <= at < |c.chain| - 1 && t < |em.turns| && Delivers(c, at, b, u)
    requires forall k | k in feeds :: k in em.tools && k.session == c.session
    requires Key(c.session, u) in em.tools
    ensures HasOutput(ScanRequest(em, c, t, parent, i, feeds).0, Key(c.session, u))
    decreases |c.chain| - i
  {
    hide Valid, Grows, ScanNode, HasOutput, Delivers;
    var n := ScanNode(em, c, t, parent, i, feeds);
    if i == at {
      ScanNodeFills(em, c, t, parent, i, feeds, b, u);
      OutputStays(n.0, ScanRequest(n.0, c, t, parent, i + 1, n.1).0, Key(c.session, u));
    } else {
      ScanRequestFills(n.0, c, t, parent, i + 1, n.1, at, b, u);
    }
  }

  lemma ConversationFills(em: Em, c: Call, t: nat, parent: SpanId, at: nat, b: ContentBlock, u: string)
    requires Valid(em) && c.Valid() && c.chain != [] && t < |em.turns| && em.turns[t].session == c.session
    requires Delivers(c, at, b, u) && Key(c.session, u) in em.tools
    ensures HasOutput(EmitConversation(em, c, t, parent), Key(c.session, u))
  {
    hide Valid, Grows, ScanRequest, LlmSpanOf, AddSpan, LinkFeeds, EmitTools, FreshInput, HasOutput, Delivers;
    var scan := ScanRequest(em, c, t, parent, 0, []);
    var withLlm := AddSpan(scan.0, t, LlmSpanOf(c, parent, FreshInput(c)));
    var fed := LinkFeeds(withLlm, scan.1, t, LlmCall(Identity(c)), 0);
    StaysTurn(em, scan.0, t);
    StaysTurn(scan.0, withLlm, t);
    StaysTurn(withLlm, fed, t);
    var r := EmitTools(fed, c, t, parent, c.Response().bucket.content, 0);
    GrowsTransitive(scan.0, withLlm, fed);
    GrowsTransitive(scan.0, fed, r);
    ScanRequestFills(em, c, t, parent, 0, [], at, b, u);
    OutputStays(scan.0, r, Key(c.session, u));
  }

  lemma MainFills(em: Em, c: Call, at: nat, b: ContentBlock, u: string)
    requires Valid(em) && c.Valid() && c.chain != [] && Delivers(c, at, b, u) && Key(c.session, u) in em.tools
    ensures HasOutput(MainCall(em, c), Key(c.session, u))
  {
    hide Valid, Grows, OpenTrace, EmitConversation, SpanModel.Prompt, HasOutput, Delivers;
    var started :=
      if c.session !in em.cur || SpanModel.Prompt(c).Some? then OpenTrace(em, c, SpanModel.Prompt(c)) else em;
    CurrentTurn(started, c.session);
    var t := started.cur[c.session];
    ConversationFills(started, c, t, RootIdAt(started, t), at, b, u);
  }

  lemma ThreadFills(em: Em, c: Call, at: nat, b: ContentBlock, u: string)
    requires Valid(em) && c.Valid() && c.chain != [] && Delivers(c, at, b, u) && Key(c.session, u) in em.tools
    ensures HasOutput(ThreadCall(em, c), Key(c.session, u))
  {
    hide Valid, Grows, EnsureAgent, EmitConversation, StretchAgent, HasOutput, Delivers;
    var hosted := EnsureAgent(em, c);
    AgentPlace(hosted, ThreadKey(c));
    var t := hosted.agents[ThreadKey(c)].turn;
    ConversationFills(hosted, c, t, SubAgent(c.thread), at, b, u);
    var spoken := EmitConversation(hosted, c, t, SubAgent(c.thread));
    OutputStays(spoken, StretchAgent(spoken, c), Key(c.session, u));
  }

  /** Spine call n, delivering a result of a tool that an earlier spine call emitted. */
  lemma {:induction false} SpineFills(calls: seq<Call>, m: nat, n: nat, k: nat, at: nat, b: ContentBlock, u: string)
    requires WellFormed(calls) && m < n < k <= |calls| && calls[m].chain != [] && calls[n].chain != []
    requires calls[m].kind == Main && calls[m].thread == "" && calls[n].kind == Main && calls[n].thread == ""
    requires calls[m].session == calls[n].session && Key(calls[n].session, u) in Emitted(calls[m]) && Delivers(calls[n], at, b, u)
    ensures HasOutput(Spine(calls, k), Key(calls[n].session, u))
  {
    hide Valid, Grows, Spine, HasOutput, Delivers, Emitted, WalkShape.SpineStep;
    var key := Key(calls[n].session, u);
    WalkShape.SpineUnfolds(calls, k - 1);
    var em := Spine(calls, k - 1);
    if k == n + 1 {
      SpineTools(calls, n, key);
      assert calls[m] in calls[..n];
      MainFills(em, calls[n], at, b, u);
      MainStep(em, calls[n]);
    } else {
      SpineFills(calls, m, n, k - 1, at, b, u);
      SpineStepGrows(em, calls[k - 1]);
      OutputStays(em, Spine(calls, k), key);
    }
  }

  lemma MainStep(em: Em, c: Call)
    requires Valid(em) && c.Valid() && c.chain != [] && c.kind == Main && c.thread == ""
    ensures WalkShape.SpineStep(em, c) == MainCall(em, c)
  {
    hide Valid, MainCall, CompactionCall;
  }

  lemma {:induction false} DegradeFills(em: Em, pending: seq<Call>, i: nat, n: nat, at: nat, b: ContentBlock, u: string)
    requires Valid(em) && Emittable(pending) && i <= n < |pending| && Delivers(pending[n], at, b, u)
    requires Key(pending[n].session, u) in em.tools
    ensures HasOutput(Degrade(em, pending, i), Key(pending[n].session, u))
    decreases |pending| - i
  {
    hide Valid, Grows, ThreadCall, HasOutput, Delivers;
    var e := ThreadCall(em, pending[i]);
    var key := Key(pending[n].session, u);
    if i == n {
      ThreadFills(em, pending[i], at, b, u);
      OutputStays(e, Degrade(e, pending, i + 1), key);
    } else {
      ToolsStay(em, e, key);
      DegradeFills(e, pending, i + 1, n, at, b, u);
    }
  }

  // ---------------------------------------------------------------- orphans elsewhere

  lemma OpenTraceOrphans(em: Em, c: Call, prompt: Option<Hash>)
    requires Valid(em) && c.chain != []
    ensures OpenTrace(em, c, prompt).orphans == em.orphans
  {
    hide Valid, Grows, TurnOpenedBy;
    WalkShape.OpenedByCall(c, prompt);
  }

  lemma MainOrphans(em: Em, c: Call)
    requires Valid(em) && c.Valid() && c.chain != []
    ensures MainCall(em, c).orphans == em.orphans && CompactionCall(em, c).orphans == em.orphans
  {
    hide Valid, Grows, OpenTrace, EmitConversation, EnsureTrace, LlmSpanOf, SpanModel.Prompt;
    OpenTraceOrphans(em, c, SpanModel.Prompt(c));
    EnsureOrphans(em, c);
    var started :=
      if c.session !in em.cur || SpanModel.Prompt(c).Some? then OpenTrace(em, c, SpanModel.Prompt(c)) else em;
    CurrentTurn(started, c.session);
    SpanQuiet.ConversationQuietly(started, c, started.cur[c.session], RootIdAt(started, started.cur[c.session]));
  }

  lemma AgentOrphans(em: Em, c: Call)
    requires Valid(em) && c.chain != []
    ensures EnsureAgent(em, c).orphans == em.orphans
  {
    hide Valid, Grows, AddLink, AddAgent, EnsureTrace, Anchor;
    EnsureOrphans(em, c);
  }

  lemma ThreadOrphans(em: Em, c: Call)
    requires Valid(em) && c.Valid() && c.chain != []
    ensures ThreadCall(em, c).orphans == em.orphans
  {
    hide Valid, Grows, EnsureAgent, EmitConversation, StretchAgent;
    AgentOrphans(em, c);
    var hosted := EnsureAgent(em, c);
    AgentPlace(hosted, ThreadKey(c));
    SpanQuiet.ConversationQuietly(hosted, c, hosted.agents[ThreadKey(c)].turn, SubAgent(c.thread));
    SpanQuiet.StretchQuietly(EmitConversation(hosted, c, hosted.agents[ThreadKey(c)].turn, SubAgent(c.thread)), c);
  }

  lemma {:induction false} SpineOrphans(calls: seq<Call>, n: nat)
    requires WellFormed(calls) && n <= |calls|
    ensures Spine(calls, n).orphans == 0
  {
    hide Valid, Spine, MainCall, CompactionCall, WalkShape.SpineStep;
    if n == 0 {
      SpanPrompts.NothingWalked(calls);
    } else {
      SpineOrphans(calls, n - 1);
      WalkShape.SpineUnfolds(calls, n - 1);
      StepOrphans(Spine(calls, n - 1), calls[n - 1]);
    }
  }

  lemma StepOrphans(em: Em, c: Call)
    requires Valid(em) && c.Valid()
    ensures WalkShape.SpineStep(em, c).orphans == em.orphans
  {
    hide Valid, MainCall, CompactionCall;
    if c.chain != [] { MainOrphans(em, c); }
  }

  lemma {:induction false} DegradeOrphans(em: Em, pending: seq<Call>, i: nat)
    requires Valid(em) && Emittable(pending) && i <= |pending|
    ensures Degrade(em, pending, i).orphans == em.orphans
    decreases |pending| - i
  {
    hide Valid, Grows, ThreadCall;
    if i < |pending| {
      ThreadOrphans(em, pending[i]);
      DegradeOrphans(ThreadCall(em, pending[i]), pending, i + 1);
    }
  }

  // ---------------------------------------------------------------- the whole walk

  lemma ThreadOrder(calls: seq<Call>) returns (o: seq<Call>)
    requires WellFormed(calls)
    ensures Emittable(o) && (forall c | c in o :: IsThread(c)) && multiset(o) == multiset(Only(calls, IsThread))
    ensures forall c :: c in o <==> c in calls && c.chain != [] && IsThread(c)
    ensures SpanModel.ThreadPhase(Spine(calls, |calls|), Only(calls, IsThread)) == Degrade(Spine(calls, |calls|), o, 0)
  {
    hide Valid, Spine, SpanModel.ThreadPhase, Fixpoint, Degrade, Only;
    var spine, threads := Spine(calls, |calls|), Only(calls, IsThread);
    ThreadFixpoint.EveryThreadCallOnce(spine, threads);
    o := ThreadFixpoint.Order(spine, threads) + Fixpoint(spine, threads).1;
    forall c ensures c in o <==> c in calls && c.chain != [] && IsThread(c) {
      OnlyMembers(calls, IsThread, c);
      assert c in o <==> c in multiset(o);
      assert c in threads <==> c in multiset(threads);
    }
  }

  /** Every event, emission and thread of a conversation shows in the walk, and every verdict
      whose tool is there; and the orphans counted are the shadow calls anchored to no tool. */
  lemma NothingIsLeftOut(calls: seq<Call>, c: Call)
    requires WellFormed(calls) && c in calls && c.chain != []
    ensures Left(Walk(calls), c)
    ensures Walk(calls).orphans == Orphans(Only(calls, IsShadow), Walk(calls).tools.Keys)
  {
    hide Valid, Grows, Spine, SpanModel.ThreadPhase, Degrade, Shadows, Only, Left;
    var spine, shadows := Spine(calls, |calls|), Only(calls, IsShadow);
    var o := ThreadOrder(calls);
    var threaded := Degrade(spine, o, 0);
    SpineOrphans(calls, |calls|);
    DegradeOrphans(spine, o, 0);
    ShadowsLeave(threaded, shadows, 0);
    assert shadows[0..] == shadows && o[0..] == o && calls[..|calls|] == calls;
    if IsShadow(c) {
      OnlyMembers(calls, IsShadow, c);
    } else {
      if IsThread(c) {
        DegradeLeaves(spine, o, 0);
      } else {
        SpineLeaves(calls, |calls|, c);
        LeftStays(spine, threaded, c);
      }
      LeftStays(threaded, Walk(calls), c);
    }
  }

  /** A result delivered by a spine call after the tool's, or by any thread call for a tool of
      the spine, is on the tool's span: delivered results are not lost. */
  lemma DeliveredResultsArrive(calls: seq<Call>, m: nat, n: nat, at: nat, b: ContentBlock, u: string)
    requires WellFormed(calls) && m < |calls| && n < |calls| && calls[m].kind == Main && calls[m].thread == ""
    requires calls[m].chain != [] && Talks(calls[n]) && (calls[n].thread != "" || m < n)
    requires calls[m].session == calls[n].session && Key(calls[n].session, u) in Emitted(calls[m]) && Delivers(calls[n], at, b, u)
    ensures HasOutput(Walk(calls), Key(calls[n].session, u))
  {
    hide Valid, Grows, Spine, SpanModel.ThreadPhase, Degrade, Shadows, Only, HasOutput, Delivers, Emitted;
    var spine, shadows := Spine(calls, |calls|), Only(calls, IsShadow);
    var key := Key(calls[n].session, u);
    var o := ThreadOrder(calls);
    var threaded := Degrade(spine, o, 0);
    if calls[n].thread == "" {
      SpineFills(calls, m, n, |calls|, at, b, u);
      OutputStays(spine, threaded, key);
    } else {
      SpineTools(calls, |calls|, key);
      assert calls[m] in calls[..|calls|] && calls[n] in calls;
      var j :| 0 <= j < |o| && o[j] == calls[n];
      DegradeFills(spine, o, 0, j, at, b, u);
    }
    OutputStays(threaded, Walk(calls), key);
  }
}
