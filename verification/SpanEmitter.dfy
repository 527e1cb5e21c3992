/** spanEmitter as the program runs it: one object whose fields the walk updates step by
    step. Each method is tied to the step of SpanModel it performs. */
module SpanEmitter {
  import opened Llm
  import opened DeriveModel
  import opened SpanModel
  import opened SpanTotals
  import opened SpanFinish
  import SpanForest
  import SpanOrigins
  import SpanPrompts
  import SpanWalk

  /** lastFreshAssistantIdx, scanning forward. */
  method LastFreshAssistant(c: Call) returns (last: int)
    requires c.Valid() && c.chain != []
    ensures last == Boundary(c)
    ensures -1 <= last < |c.chain| - 1
    ensures last >= 0 ==> FreshAssistant(c, last)
    ensures forall i | last < i < |c.chain| - 1 :: !FreshAssistant(c, i)
  {
    last := -1;
    for i := 0 to |c.chain| - 1
      invariant last == LastFresh(c, i)
      invariant last >= 0 ==> FreshAssistant(c, last)
      invariant forall j | last < j < i :: !FreshAssistant(c, j)
    {
      if c.isNew[i] && c.chain[i].bucket.role == Assistant {
        last := i;
      }
    }
  }

  /** freshGenuinePrompt */
  method FreshGenuinePrompt(c: Call) returns (prompt: Option<Hash>)
    requires c.Valid() && c.chain != []
    ensures prompt == SpanModel.Prompt(c)
    ensures forall h :: prompt == Some(h) <==> exists i :: SpanPrompts.LastGenuine(c, i) && c.chain[i].hash == h
    ensures prompt == None <==> forall i :: !SpanPrompts.Genuine(c, i)
  {
    SpanPrompts.NoPromptMeans(c);
    forall h: Hash
      ensures SpanModel.Prompt(c) == Some(h) <==> exists i :: SpanPrompts.LastGenuine(c, i) && c.chain[i].hash == h
    {
      SpanPrompts.PromptMeans(c, h);
    }
    hide SpanPrompts.Genuine, SpanPrompts.LastGenuine;
    var last := LastFreshAssistant(c);
    prompt := None;
    for i := 0 to |c.chain| - 1
      invariant prompt == FreshPrompt(c, i)
    {
      if !c.isNew[i] || i <= last || c.chain[i].bucket.role != User || c.chain[i].kind.Injected? {
        continue;
      }
      var blocks := c.chain[i].bucket.content;
      var genuine := true;
      for j := 0 to |blocks|
        invariant genuine <==> !HasResult(blocks[..j])
      {
        assert blocks[..j + 1] == blocks[..j] + [blocks[j]];
        if blocks[j].kind == ToolResult {
          assert blocks[..j + 1][j].kind == ToolResult;
          genuine := false;
          assert HasResult(blocks[..j + 1]);
        } else {
          if HasResult(blocks[..j]) {
            var k :| 0 <= k < j && blocks[..j][k].kind == ToolResult;
            assert blocks[..j + 1][k].kind == ToolResult;
          }
        }
      }
      assert blocks[..|blocks|] == blocks;
      if genuine {
        prompt := Some(c.chain[i].hash);
      }
    }
  }

  /** freshInput */
  method CollectFreshInput(c: Call) returns (out: seq<ContentBlock>)
    requires c.Valid() && c.chain != []
    ensures out == FreshInput(c)
    ensures SpanPrompts.InputShown(c, out)
  {
    SpanPrompts.InputMeans(c);
    hide SpanPrompts.InputShown;
    var last := LastFreshAssistant(c);
    out := [];
    for i := 0 to |c.chain| - 1
      invariant out == InputBelow(c, i)
    {
      if !c.isNew[i] || i <= last || c.chain[i].bucket.role != User || c.chain[i].kind.Injected? {
        continue;
      }
      var blocks := c.chain[i].bucket.content;
      for j := 0 to |blocks|
        invariant out == InputBelow(c, i) + DropResults(blocks[..j])
      {
        assert blocks[..j + 1][..j] == blocks[..j];
        if blocks[j].kind == ToolResult {
          continue;
        }
        out := out + [blocks[j]];
      }
      assert blocks[..|blocks|] == blocks;
    }
  }

  /** threadAnchor */
  method ResolveAnchor(c: Call) returns (anchor: string)
    ensures anchor == Anchor(c)
    ensures SpanOrigins.AnchoredBy(c, anchor)
  {
    SpanOrigins.AnchorMeans(c);
    hide SpanOrigins.AnchoredBy;
    if c.anchor != "" {
      return c.anchor;
    }
    for i := 0 to |c.chain|
      invariant RootStamp(c.chain, i) == RootStamp(c.chain, 0)
    {
      if c.chain[i].hash.parent == None && c.chain[i].forkStamp != "" {
        return c.chain[i].forkStamp;
      }
    }
    return "";
  }

  lemma TurnHasRoot(em: Em, t: nat)
    requires SpanModel.Valid(em) && t < |em.turns|
    ensures em.turns[t].spans != []
  {
  }

  /** What the model fold must hold: the earlier traces in full, plus these spans. */
  ghost function UseSoFar(turns: seq<Turn>, session: Session, spans: seq<Span>, s: Session, model: string): ModelUse {
    var before := ModelUseOf(turns, s, model);
    if s != session then before
    else ModelUse(before.calls + SumSpans(spans, ModelCalls(model)), before.prompt + SumSpans(spans, ModelPrompt(model)),
                  before.completion + SumSpans(spans, ModelCompletion(model)))
  }

  function UseOf(models: map<(Session, string), ModelUse>, key: (Session, string)): ModelUse {
    if key in models then models[key] else ModelUse(0, 0, 0)
  }

  ghost predicate Folded(models: map<(Session, string), ModelUse>, turns: seq<Turn>, session: Session,
                         spans: seq<Span>) {
    && (forall key | key in models :: key.1 != "")
    && (forall s, model | model != "" :: UseOf(models, (s, model)) == UseSoFar(turns, session, spans, s, model))
  }

  ghost predicate FoldedAll(models: map<(Session, string), ModelUse>, turns: seq<Turn>) {
    && (forall key | key in models :: key.1 != "")
    && (forall s, model | model != "" :: UseOf(models, (s, model)) == ModelUseOf(turns, s, model))
  }

  lemma FoldStarts(models: map<(Session, string), ModelUse>, turns: seq<Turn>, session: Session)
    requires FoldedAll(models, turns)
    ensures Folded(models, turns, session, [])
  {
  }

  /** Moving to the next trace: a trace's sorted spans weigh what its spans did. */
  lemma FoldedNext(models: map<(Session, string), ModelUse>, turns: seq<Turn>, k: nat)
    requires k < |turns| && turns[k].spans != []
    requires Folded(models, turns[..k], turns[k].session, Ordered(turns[k].spans))
    ensures FoldedAll(models, turns[..k + 1])
  {
    assert turns[..k + 1][..k] == turns[..k];
    forall s, model | model != "" ensures UseOf(models, (s, model)) == ModelUseOf(turns[..k + 1], s, model) {
      OrderedSum(turns[k].spans, ModelCalls(model));
      OrderedSum(turns[k].spans, ModelPrompt(model));
      OrderedSum(turns[k].spans, ModelCompletion(model));
      assert UseOf(models, (s, model)) == UseSoFar(turns[..k], turns[k].session, Ordered(turns[k].spans), s, model);
    }
  }

  lemma ArmedHere(em: Em, s: Session, at: Ref)
    requires SpanModel.Valid(em) && s in em.cur && Armed(em.turns, at, s)
    ensures SpanModel.Valid(ArmSeam(em, s, at))
  {
  }

  lemma DegradeUnfolds(em: Em, calls: seq<Call>, i: nat)
    requires SpanModel.Valid(em) && Emittable(calls) && i <= |calls|
    ensures i == |calls| ==> Degrade(em, calls, i) == em
    ensures i < |calls| ==> SpanModel.Valid(SpanModel.ThreadCall(em, calls[i]))
                            && Degrade(em, calls, i) == Degrade(SpanModel.ThreadCall(em, calls[i]), calls, i + 1)
  {
    hide SpanModel.Valid, Grows, SpanModel.ThreadCall;
  }

  lemma TimelinesAreCurrent(em: Em, s: Session)
    requires SpanModel.Valid(em)
    ensures s in em.timeline <==> s in em.cur
  {
    assert s in em.timeline.Keys <==> s in em.cur.Keys;
  }

  lemma EnsuredAlready(em: Em, c: Call)
    requires SpanModel.Valid(em) && c.chain != [] && c.session in em.cur
    ensures SpanModel.EnsureTrace(em, c) == em
  {
  }

  class Emitter {
    var turns: seq<Turn>
    var cross: seq<Link>
    var cur: map<Session, nat>
    var timeline: map<Session, seq<nat>>
    var tools: map<Key, Ref>
    var agents: map<Key, Ref>
    var seam: map<Session, Ref>
    var synthetic: nat
    var orphans: nat
    var rollups: seq<Rollup>
    var models: map<(Session, string), ModelUse>

    /** The emitter's walk state as a value. */
    ghost function State(): Em
      reads this
    {
      Em(turns, cross, cur, timeline, tools, agents, seam, synthetic, orphans)
    }

    ghost predicate Valid()
      reads this
    {
      SpanModel.Valid(State())
    }

    constructor ()
      ensures State() == EMPTY && rollups == [] && models == map[]
    {
      turns, cross, cur, timeline := [], [], map[], map[];
      tools, agents, seam, synthetic, orphans := map[], map[], map[], 0, 0;
      rollups, models := [], map[];
    }

    method AddSpan(t: nat, sp: Span)
      requires Valid() && t < |turns|
      modifies this`turns
      ensures State() == SpanModel.AddSpan(old(State()), t, sp) && Valid()
    {
      var turn := turns[t];
      turn := turn.(spans := turn.spans + [sp]);
      if SpanEnd(sp) > turn.endedAt {
        turn := turn.(endedAt := SpanEnd(sp));
      }
      turns := turns[t := turn];
    }

    method AddLink(host: nat, l: Link)
      requires Valid() && host < |turns|
      modifies this`turns, this`cross
      ensures State() == SpanModel.AddLink(old(State()), host, l) && Valid()
    {
      if l.fromTrace == l.toTrace {
        turns := turns[host := turns[host].(links := turns[host].links + [l])];
      } else {
        cross := cross + [l];
      }
    }

    method SetSpan(r: Ref, sp: Span)
      requires Valid() && r.turn < |turns| && r.span < |turns[r.turn].spans|
      requires SpanGrows(SpanAt(State(), r), sp)
      modifies this`turns
      ensures State() == SpanModel.SetSpan(old(State()), r, sp) && Valid()
    {
      turns := turns[r.turn := turns[r.turn].(spans := turns[r.turn].spans[r.span := sp])];
    }

    /** Returns the tool whose result is fresh dataflow, if this result is. */
    method FillToolResult(s: Session, b: ContentBlock, at: int) returns (fed: Option<Key>)
      requires Valid()
      modifies this`turns
      ensures (State(), fed) == Fill(old(State()), s, b, at) && Valid()
    {
      hide SpanModel.Valid, Grows, SpanModel.SetSpan;
      var id := b.toolResultId;
      if id == "" {
        id := b.toolUseId;
      }
      var k := Key(s, id);
      if k !in tools {
        return None;
      }
      ToolPlace(State(), k);
      var r := tools[k];
      var ts := turns[r.turn].spans[r.span];
      if |ts.output| > 0 {
        return None;
      }
      var d := at - ts.fixed.startedAt;
      SetSpan(r, ts.(output := [b], failed := ts.failed || b.isError, duration := if d > 0 then d else ts.duration));
      return Some(k);
    }

    method OpenTrace(c: Call, prompt: Option<Hash>) returns (t: nat)
      requires Valid() && c.chain != []
      modifies this
      ensures State() == SpanModel.OpenTrace(old(State()), c, prompt) && Valid()
      ensures t == |old(turns)| && c.session in cur && cur[c.session] == t
      ensures rollups == old(rollups) && models == old(models)
    {
      hide SpanModel.Valid, Grows;
      t := |turns|;
      ghost var before := State();
      var turn := TurnOpenedBy(c, prompt);
      turns := turns + [turn];
      cur := cur[c.session := t];
      timeline := timeline[c.session := (if c.session in timeline then timeline[c.session] else []) + [t]];
      assert State() == PushTurn(before, turn);
      if c.session in seam {
        CloseSeam(c, t);
      }
    }

    method CloseSeam(c: Call, t: nat)
      requires Valid() && c.chain != [] && t < |turns| && c.session in seam
      modifies this`turns, this`cross, this`synthetic, this`seam
      ensures State() == SpanModel.CloseSeam(old(State()), c, t) && Valid()
    {
      hide SpanModel.Valid, Grows;
      SeamPlace(State(), c.session);
      var from := seam[c.session];
      var l := Link(turns[from.turn].traceId, turns[from.turn].spans[from.span].fixed.id,
                    Trace(Identity(c)), LlmCall(Identity(c)), CompactionSeam);
      ghost var before := State();
      turns := turns[t := turns[t].(synthetic := PostCompaction)];
      synthetic := synthetic + 1;
      seam := seam - {c.session};
      assert State() == TakeSeam(before, c.session, t);
      AddLink(t, l);
    }

    method EnsureTrace(c: Call) returns (t: nat)
      requires Valid() && c.chain != []
      modifies this
      ensures State() == SpanModel.EnsureTrace(old(State()), c) && Valid()
      ensures c.session in cur && cur[c.session] == t
      ensures rollups == old(rollups) && models == old(models)
    {
      hide SpanModel.Valid, Grows;
      if c.session in cur {
        return cur[c.session];
      }
      t := OpenTrace(c, None);
      turns := turns[t := turns[t].(synthetic := ShadowOpener)];
      synthetic := synthetic + 1;
    }

    /** traceAt: the session trace live at the call's capture time, synthesized when there is
        none. */
    method TraceAt(c: Call) returns (t: nat)
      requires Valid() && c.chain != []
      modifies this
      ensures State() == SpanModel.EnsureTrace(old(State()), c) && Valid()
      ensures c.session in cur && t == SpanModel.TraceAt(State(), c)
      ensures rollups == old(rollups) && models == old(models)
    {
      hide SpanModel.Valid, Grows, SpanModel.TraceAt, SpanModel.EnsureTrace;
      if c.session !in timeline {
        TimelinesAreCurrent(State(), c.session);
        FreshTraceIsLive(State(), c);
        t := EnsureTrace(c);
        return;
      }
      TimelinesAreCurrent(State(), c.session);
      EnsuredAlready(State(), c);
      t := LiveAt(c);
    }

    /** traceAt's scan over the traces of a session that has some. */
    method LiveAt(c: Call) returns (t: nat)
      requires Valid() && c.session in cur
      ensures t == SpanModel.TraceAt(State(), c)
    {
      hide SpanModel.Valid;
      CurrentTurn(State(), c.session);
      var line := timeline[c.session];
      assert TurnOf(turns, line[0], c.session);
      t := line[0];
      var i := 1;
      while i < |line|
        invariant 1 <= i <= |line| && TurnOf(turns, t, c.session)
        invariant LiveTrace(State(), line, c.session, c.at, i, t)
               == LiveTrace(State(), line, c.session, c.at, 1, line[0])
      {
        assert TurnOf(turns, line[i], c.session);
        if turns[line[i]].startedAt > c.at {
          break;
        }
        t := line[i];
        i := i + 1;
      }
    }

    method EmitTool(c: Call, t: nat, parent: SpanId, b: ContentBlock)
      requires Valid() && t < |turns| && turns[t].session == c.session && c.chain != []
      modifies this
      ensures State() == SpanModel.EmitTool(old(State()), c, t, parent, b) && Valid()
      ensures rollups == old(rollups) && models == old(models)
    {
      hide SpanModel.Valid, Grows;
      if !Emission(b) {
        return;
      }
      var k := Key(c.session, b.toolUseId);
      var id := turns[t].traceId;
      var llm := LlmCall(Identity(c));
      if k in tools {
        ToolPlace(State(), k);
        AddLink(t, Link(id, llm, turns[tools[k].turn].traceId, ToolCall(k.id), Emits));
        return;
      }
      ghost var before := State();
      var at := Ref(t, |turns[t].spans|);
      AddSpan(t, ToolSpanOf(c, parent, b));
      tools := tools[k := at];
      assert State() == AddTool(before, t, ToolSpanOf(c, parent, b), k);
      AddLink(t, Link(id, llm, id, ToolCall(k.id), Emits));
    }

    /** emitConversation's request half: events and tool results. */
    method ScanRequest(c: Call, t: nat, parent: SpanId) returns (feeds: seq<Key>)
      requires Valid() && c.Valid() && c.chain != [] && t < |turns|
      modifies this`turns
      ensures (State(), feeds) == SpanModel.ScanRequest(old(State()), c, t, parent, 0, []) && Valid()
    {
      hide SpanModel.Valid, Grows, SpanModel.ScanNode, Boundary;
      ghost var before := State();
      var last := LastFreshAssistant(c);
      feeds := [];
      for i := 0 to |c.chain| - 1
        invariant Valid() && t < |turns|
        invariant forall k | k in feeds :: k in tools && k.session == c.session
        invariant SpanModel.ScanRequest(State(), c, t, parent, i, feeds) == SpanModel.ScanRequest(before, c, t, parent, 0, [])
      {
        feeds := ScanNode(c, t, parent, i, last, feeds);
      }
    }

    /** The feeds edges of the results this request delivered. */
    method LinkFeeds(feeds: seq<Key>, t: nat, span: SpanId)
      requires Valid() && t < |turns| && forall k | k in feeds :: k in tools
      modifies this`turns, this`cross
      ensures State() == SpanModel.LinkFeeds(old(State()), feeds, t, span, 0) && Valid()
    {
      hide SpanModel.Valid, Grows, SpanModel.AddLink;
      ghost var before := State();
      for i := 0 to |feeds|
        invariant Valid() && t < |turns|
        invariant SpanModel.LinkFeeds(State(), feeds, t, span, i) == SpanModel.LinkFeeds(before, feeds, t, span, 0)
      {
        ToolPlace(State(), feeds[i]);
        AddLink(t, Link(turns[tools[feeds[i]].turn].traceId, ToolCall(feeds[i].id), turns[t].traceId, span, Feeds));
      }
    }

    /** The tool spans of the response's tool_use blocks. */
    method EmitTools(c: Call, t: nat, parent: SpanId, blocks: seq<ContentBlock>)
      requires Valid() && t < |turns| && turns[t].session == c.session && c.chain != []
      modifies this
      ensures State() == SpanModel.EmitTools(old(State()), c, t, parent, blocks, 0) && Valid()
      ensures rollups == old(rollups) && models == old(models)
    {
      hide SpanModel.Valid, Grows, SpanModel.EmitTool;
      ghost var before := State();
      for j := 0 to |blocks|
        invariant Valid() && t < |turns| && turns[t].session == c.session
        invariant rollups == old(rollups) && models == old(models)
        invariant SpanModel.EmitTools(State(), c, t, parent, blocks, j) == SpanModel.EmitTools(before, c, t, parent, blocks, 0)
      {
        ghost var here := State();
        EmitTool(c, t, parent, blocks[j]);
        TurnStays(here, State(), t);
      }
    }

    method EmitConversation(c: Call, t: nat, parent: SpanId)
      requires Valid() && c.Valid() && c.chain != []
      requires t < |turns| && turns[t].session == c.session
      modifies this
      ensures State() == SpanModel.EmitConversation(old(State()), c, t, parent) && Valid()
      ensures rollups == old(rollups) && models == old(models)
    {
      hide SpanModel.Valid, Grows, SpanModel.ScanRequest, SpanModel.AddSpan, SpanModel.LinkFeeds, SpanModel.EmitTools,
           LlmSpanOf, FreshInput;
      ghost var before := State();
      var feeds := ScanRequest(c, t, parent);
      var input := CollectFreshInput(c);
      ghost var scanned := State();
      AddSpan(t, LlmSpanOf(c, parent, input));
      ghost var withLlm := State();
      LinkFeeds(feeds, t, LlmCall(Identity(c)));
      GrowsTransitive(before, scanned, withLlm);
      GrowsTransitive(before, withLlm, State());
      TurnStays(before, State(), t);
      EmitTools(c, t, parent, c.Response().bucket.content);
    }

    method MainCall(c: Call)
      requires Valid() && c.Valid() && c.chain != []
      modifies this
      ensures State() == SpanModel.MainCall(old(State()), c) && Valid()
      ensures rollups == old(rollups) && models == old(models)
    {
      hide SpanModel.Valid, Grows, SpanModel.OpenTrace, SpanModel.EmitConversation, SpanModel.Prompt;
      var prompt := FreshGenuinePrompt(c);
      if c.session !in cur || prompt.Some? {
        var _ := OpenTrace(c, prompt);
      }
      CurrentTurn(State(), c.session);
      EmitConversation(c, cur[c.session], turns[cur[c.session]].spans[0].fixed.id);
    }

    /** threadCall's first half. */
    method EnsureAgent(c: Call)
      requires Valid() && c.chain != []
      modifies this
      ensures State() == SpanModel.EnsureAgent(old(State()), c) && Valid() && ThreadKey(c) in agents
      ensures rollups == old(rollups) && models == old(models)
    {
      hide SpanModel.Valid, Grows, SpanModel.AddLink, SpanModel.AddSpan, SpanModel.EnsureTrace, Anchor;
      var key := ThreadKey(c);
      if key in agents {
        return;
      }
      var anchor := ResolveAnchor(c);
      var task := Key(c.session, anchor);
      ghost var before := State();
      if task in tools {
        ToolPlace(State(), task);
        var t := tools[task].turn;
        var id := turns[t].traceId;
        AddLink(t, Link(id, SubAgent(c.thread), id, ToolCall(task.id), Rejoin));
        TurnStays(before, State(), t);
        ghost var linked := State();
        var at := Ref(t, |turns[t].spans|);
        AddSpan(t, AgentSpanOf(c, ToolCall(task.id)));
        agents := agents[key := at];
        assert State() == AddAgent(linked, t, AgentSpanOf(c, ToolCall(task.id)), key);
      } else {
        var t := EnsureTrace(c);
        CurrentTurn(State(), c.session);
        ghost var host := State();
        var at := Ref(t, |turns[t].spans|);
        var rootId := turns[t].spans[0].fixed.id;
        AddSpan(t, AgentSpanOf(c, rootId));
        agents := agents[key := at];
        assert State() == AddAgent(host, t, AgentSpanOf(c, rootId), key);
      }
    }

    method ThreadCall(c: Call)
      requires Valid() && c.Valid() && c.chain != []
      modifies this
      ensures State() == SpanModel.ThreadCall(old(State()), c) && Valid()
      ensures rollups == old(rollups) && models == old(models)
    {
      hide SpanModel.Valid, Grows, SpanModel.EnsureAgent, SpanModel.EmitConversation, SpanModel.SetSpan;
      EnsureAgent(c);
      var key := ThreadKey(c);
      AgentPlace(State(), key);
      EmitConversation(c, agents[key].turn, SubAgent(c.thread));
      AgentPlace(State(), key);
      var r := agents[key];
      var agent := turns[r.turn].spans[r.span];
      if c.at > agent.fixed.startedAt {
        SetSpan(r, agent.(duration := c.at - agent.fixed.startedAt));
      }
    }

    method CompactionCall(c: Call)
      requires Valid() && c.chain != []
      modifies this
      ensures State() == SpanModel.CompactionCall(old(State()), c) && Valid()
      ensures rollups == old(rollups) && models == old(models)
    {
      hide SpanModel.Valid, Grows, SpanModel.EnsureTrace, SpanModel.AddSpan, LlmSpanOf;
      var t := EnsureTrace(c);
      CurrentTurn(State(), c.session);
      var at := Ref(t, |turns[t].spans|);
      AddSpan(t, LlmSpanOf(c, turns[t].spans[0].fixed.id, []));
      ghost var added := State();
      seam := seam[c.session := at];
      assert State() == ArmSeam(added, c.session, at) by { ArmedHere(added, c.session, at); }
    }

    method ShadowCall(c: Call)
      requires Valid() && c.Valid() && c.chain != []
      modifies this
      ensures State() == SpanModel.ShadowCall(old(State()), c) && Valid()
      ensures rollups == old(rollups) && models == old(models)
    {
      hide SpanModel.Valid, Grows, SpanModel.EnsureTrace, SpanModel.AddSpan, SpanModel.AddLink, SpanModel.TraceAt, LlmSpanOf, FreshInput;
      var key := Key(c.session, c.anchor);
      var input := CollectFreshInput(c);
      if key in tools {
        ToolPlace(State(), key);
        var t := tools[key].turn;
        var id := turns[t].traceId;
        AddSpan(t, LlmSpanOf(c, ToolCall(key.id), input));
        AddLink(t, Link(id, LlmCall(Identity(c)), id, ToolCall(key.id), Verdict));
      } else {
        var t := TraceAt(c);
        ghost var host := State();
        TurnHasRoot(host, t);
        orphans := orphans + 1;
        assert State() == CountOrphan(host);
        AddSpan(t, LlmSpanOf(c, turns[t].spans[0].fixed.id, input));
      }
    }

    /** threadCalls: passes until one makes no progress, then the leftovers. */
    method ThreadCalls(calls: seq<Call>)
      requires Valid() && Emittable(calls)
      modifies this
      ensures State() == ThreadPhase(old(State()), calls) && Valid()
      ensures rollups == old(rollups) && models == old(models)
    {
      hide SpanModel.Valid, Grows, SpanModel.ThreadCall, Pass, Ready, Degrade;
      ghost var before := State();
      var pending := calls;
      while pending != []
        invariant Valid() && Emittable(pending)
        invariant rollups == old(rollups) && models == old(models)
        invariant Fixpoint(State(), pending) == Fixpoint(before, calls)
        decreases |pending|
      {
        var blocked := RunPass(pending);
        if |blocked| == |pending| {
          break;
        }
        pending := blocked;
      }
      assert Fixpoint(State(), pending) == (State(), pending);
      ghost var placed := State();
      for i := 0 to |pending|
        invariant Valid()
        invariant rollups == old(rollups) && models == old(models)
        invariant Degrade(State(), pending, i) == Degrade(placed, pending, 0)
      {
        DegradeUnfolds(State(), pending, i);
        ThreadCall(pending[i]);
      }
      DegradeUnfolds(State(), pending, |pending|);
    }

    /** One pass in capture order; the calls that found no anchor come back. */
    method RunPass(pending: seq<Call>) returns (blocked: seq<Call>)
      requires Valid() && Emittable(pending)
      modifies this
      ensures (State(), blocked) == Pass(old(State()), pending, 0, []) && Valid() && Emittable(blocked)
      ensures |blocked| <= |pending|
      ensures |blocked| == |pending| ==> State() == old(State()) && blocked == pending
      ensures rollups == old(rollups) && models == old(models)
    {
      hide SpanModel.Valid, Grows, SpanModel.ThreadCall, Anchor;
      ghost var before := State();
      blocked := [];
      for i := 0 to |pending|
        invariant Valid() && Emittable(blocked)
        invariant rollups == old(rollups) && models == old(models)
        invariant Pass(State(), pending, i, blocked) == Pass(before, pending, 0, [])
      {
        var c := pending[i];
        var ready := ThreadKey(c) in agents;
        if !ready {
          var anchor := ResolveAnchor(c);
          if anchor != "" {
            ready := Key(c.session, anchor) in tools;
          }
        }
        if ready {
          ThreadCall(c);
        } else {
          blocked := blocked + [c];
        }
      }
      assert pending[0..] == pending;
    }

    /** One request node: its event span, or the tool results it delivers. */
    method ScanNode(c: Call, t: nat, parent: SpanId, i: nat, last: int, feeds0: seq<Key>) returns (feeds: seq<Key>)
      requires Valid() && c.Valid() && i < |c.chain| && t < |turns| && last == Boundary(c)
      requires forall k | k in feeds0 :: k in tools && k.session == c.session
      modifies this`turns
      ensures (State(), feeds) == SpanModel.ScanNode(old(State()), c, t, parent, i, feeds0) && Valid()
    {
      hide SpanModel.Valid, Grows, SpanModel.AddSpan, Fill, Boundary;
      feeds := feeds0;
      var n := c.chain[i];
      if !c.isNew[i] {
        return;
      }
      if n.kind.Injected? {
        if i > last {
          AddSpan(t, EventSpanOf(c, parent, n.kind, n));
        }
        return;
      }
      if n.bucket.role == System {
        if i > last {
          AddSpan(t, EventSpanOf(c, parent, Injected("system-insert"), n));
        }
        return;
      }
      if n.bucket.role != User && n.bucket.role != Tool {
        return;
      }
      var blocks := n.bucket.content;
      ghost var before := State();
      for j := 0 to |blocks|
        invariant Valid()
        invariant forall k | k in feeds :: k in tools && k.session == c.session
        invariant ScanResults(State(), c.session, blocks, n.capturedAt, j, feeds)
               == ScanResults(before, c.session, blocks, n.capturedAt, 0, feeds0)
      {
        if blocks[j].kind != ToolResult {
          continue;
        }
        var fed := FillToolResult(c.session, blocks[j], n.capturedAt);
        if fed.Some? {
          feeds := feeds + [fed.value];
        }
      }
    }

    /** The walk: spine calls as they come, then threads, then shadows. */
    method Walk(calls: seq<Call>)
      requires State() == EMPTY && WellFormed(calls)
      modifies this
      ensures State() == SpanModel.Walk(calls) && Valid()
      ensures rollups == old(rollups) && models == old(models)
    {
      hide SpanModel.Valid, Grows, SpanModel.MainCall, SpanModel.CompactionCall, SpanModel.ShadowCall, ThreadPhase;
      assert Valid() by { EmptyIsValid(); }
      var threads: seq<Call>, shadows: seq<Call> := [], [];
      for i := 0 to |calls|
        invariant Valid() && State() == Spine(calls, i)
        invariant rollups == old(rollups) && models == old(models)
        invariant threads == Only(calls[..i], IsThread) && shadows == Only(calls[..i], IsShadow)
      {
        assert calls[..i + 1][..i] == calls[..i];
        var c := calls[i];
        if c.chain == [] {
          continue;
        }
        if c.kind == Compaction && c.thread != "" {
          threads := threads + [c];
        } else if c.kind == Main && c.thread == "" {
          MainCall(c);
        } else if c.kind == Main {
          threads := threads + [c];
        } else if c.kind == Compaction {
          CompactionCall(c);
        } else {
          shadows := shadows + [c];
        }
      }
      assert calls[..|calls|] == calls;
      ThreadCalls(threads);
      ghost var threaded := State();
      for i := 0 to |shadows|
        invariant Valid() && Shadows(State(), shadows, i) == Shadows(threaded, shadows, 0)
        invariant rollups == old(rollups) && models == old(models)
      {
        ShadowCall(shadows[i]);
      }
    }

    /** finish's inner loop: one trace's totals, window and model spend. */
    method RollUp(session: Session, spans: seq<Span>, from: int, ghost earlier: seq<Turn>) returns (sum: Rollup,
                  end: int)
      requires Folded(models, earlier, session, [])
      modifies this`models
      ensures sum == RollupOf(spans) && end == LatestEnd(spans, from)
      ensures Folded(models, earlier, session, spans)
    {
      hide SumSpans, SpanWeight, Folded, LatestEnd, UseOf;
      end := from;
      sum := Rollup(0, 0, 0, 0, 0, 0, 0);
      assert sum == RollupOf(spans[..0]) && end == LatestEnd(spans[..0], from) by { NothingSummed(from); }
      assert spans[..0] == [];
      for j := 0 to |spans|
        invariant end == LatestEnd(spans[..j], from)
        invariant sum == RollupOf(spans[..j])
        invariant Folded(models, earlier, session, spans[..j])
      {
        var f := spans[j].fixed;
        AddToRollup(spans, j, from);
        if SpanEnd(spans[j]) > end {
          end := SpanEnd(spans[j]);
        }
        if f.kind == ToolSpan {
          sum := sum.(toolCalls := sum.toolCalls + 1);
        }
        ghost var was := models;
        if f.kind == LlmSpan && f.usage.Some? {
          var u := f.usage.value;
          sum := sum.(prompt := sum.prompt + u.promptTokens, completion := sum.completion + u.completionTokens,
                      cacheRead := sum.cacheRead + u.cacheReadTokens, cacheCreation := sum.cacheCreation + u.cacheCreationTokens);
          if f.callKind == Some(Main) {
            sum := sum.(mainPrompt := sum.mainPrompt + u.promptTokens, mainCompletion := sum.mainCompletion + u.completionTokens);
          }
          if f.model != "" {
            var mu := UseOf(models, (session, f.model));
            models := models[(session, f.model) := ModelUse(mu.calls + 1, mu.prompt + u.promptTokens, mu.completion + u.completionTokens)];
          }
        }
        AddToModels(was, models, earlier, session, spans, j);
      }
      assert spans[..|spans|] == spans;
    }

    /** One trace of finish: order it, roll it up, fold its spend into the models. */
    method FinishTurn(k: nat, ghost walked: seq<Turn>)
      requires k < |turns| == |walked| && turns[k] == walked[k] && walked[k].spans != []
      requires Folded(models, walked[..k], walked[k].session, [])
      modifies this`turns, this`rollups, this`models
      ensures var f := SpanFinish.FinishTurn(walked[k]);
              turns == old(turns)[k := f.turn] && rollups == old(rollups) + [f.rollup]
      ensures Folded(models, walked[..k], walked[k].session, Ordered(walked[k].spans))
    {
      hide Folded, StableSort, RollupOf, LatestEnd;
      var turn := turns[k];
      var spans := [turn.spans[0]] + StableSort(turn.spans[1..]);
      var sum, end := RollUp(turn.session, spans, turn.endedAt, walked[..k]);
      var root := spans[0];
      if root.fixed.kind == AgentSpan {
        root := root.(duration := end - turn.startedAt);
      }
      turns := turns[k := turn.(spans := [root] + spans[1..], endedAt := end)];
      rollups := rollups + [sum];
    }

    /** finish */
    method Finish()
      requires Valid() && rollups == [] && models == map[]
      modifies this`turns, this`rollups, this`models
      ensures |turns| == |rollups| == |old(turns)|
      ensures forall k | 0 <= k < |turns| ::
                old(turns)[k].spans != [] && Finished(turns[k], rollups[k]) == SpanFinish.FinishTurn(old(turns)[k])
      ensures forall s, model | model != "" :: UseOf(models, (s, model)) == ModelUseOf(old(turns), s, model)
      ensures forall key | key in models :: key.1 != ""
    {
      ghost var walked := turns;
      assert NoEmptyTurn(walked) by { ValidHasRoots(State()); }
      hide SpanModel.Valid, SpanFinish.FinishTurn, Folded, ModelUseOf;
      assert FoldedAll(models, walked[..0]) by { NothingFolded(); }
      for k := 0 to |turns|
        invariant |turns| == |walked| && |rollups| == k
        invariant forall j | k <= j < |turns| :: turns[j] == walked[j]
        invariant forall j | 0 <= j < k :: Finished(turns[j], rollups[j]) == SpanFinish.FinishTurn(walked[j])
        invariant FoldedAll(models, walked[..k])
      {
        FoldStarts(models, walked[..k], walked[k].session);
        FinishTurn(k, walked);
        FoldedNext(models, walked, k);
      }
      assert walked[..|walked|] == walked;
    }
  }

  /** EmitSpans: the emitter of a run holds the finished traces of the walk, and the spend
      it reports per model is the spend of the session's calls. */
  method EmitSpans(calls: seq<Call>) returns (em: Emitter)
    requires WellFormed(calls)
    ensures fresh(em)
    ensures var walk := SpanModel.Walk(calls);
            && em.cross == walk.cross && em.synthetic == walk.synthetic && em.orphans == walk.orphans
            && |em.turns| == |em.rollups| == |walk.turns|
            && (forall k | 0 <= k < |em.turns| ::
                  walk.turns[k].spans != []
                  && Finished(em.turns[k], em.rollups[k]) == SpanFinish.FinishTurn(walk.turns[k]))
    ensures forall s, model | model != "" ::
              UseOf(em.models, (s, model))
              == ModelUse(SumCalls(calls, s, ModelCalls(model)), SumCalls(calls, s, ModelPrompt(model)),
                          SumCalls(calls, s, ModelCompletion(model)))
    ensures SpanWalk.Separate(calls) ==> SpanForest.Forest(em.turns, em.cross)
  {
    hide SpanModel.Valid, SpanModel.Walk, SpanFinish.FinishTurn, SumCalls, SessionTotal, SpanWalk.Separate, SpanForest.Forest;
    em := new Emitter();
    em.Walk(calls);
    em.Finish();
    if SpanWalk.Separate(calls) {
      SpanForest.WalkIsForest(calls);
      SpanForest.FinishedForest(SpanModel.Walk(calls).turns, em.turns, em.cross);
    }
    forall s, model | model != ""
      ensures UseOf(em.models, (s, model))
              == ModelUse(SumCalls(calls, s, ModelCalls(model)), SumCalls(calls, s, ModelPrompt(model)),
                          SumCalls(calls, s, ModelCompletion(model)))
    {
      ModelSpendConserved(calls, s, model);
    }
  }

  lemma NothingFolded()
    ensures FoldedAll(map[], [])
  {
  }

  lemma EmptyIsValid()
    ensures SpanModel.Valid(EMPTY)
  {
  }

  lemma ValidHasRoots(em: Em)
    requires SpanModel.Valid(em)
    ensures NoEmptyTurn(em.turns)
  {
  }

  lemma NothingSummed(from: int)
    ensures RollupOf([]) == Rollup(0, 0, 0, 0, 0, 0, 0) && LatestEnd([], from) == from
  {
  }

  lemma AddToRollup(spans: seq<Span>, j: nat, from: int)
    requires j < |spans|
    ensures LatestEnd(spans[..j + 1], from) == Max(LatestEnd(spans[..j], from), SpanEnd(spans[j]))
    ensures var a, b, f := RollupOf(spans[..j]), RollupOf(spans[..j + 1]), spans[j].fixed;
            && b.toolCalls == a.toolCalls + (if f.kind == ToolSpan then 1 else 0)
            && (if f.kind == LlmSpan && f.usage.Some? then
                  var u := f.usage.value;
                  && b.prompt == a.prompt + u.promptTokens && b.completion == a.completion + u.completionTokens
                  && b.cacheRead == a.cacheRead + u.cacheReadTokens && b.cacheCreation == a.cacheCreation + u.cacheCreationTokens
                  && b.mainPrompt == a.mainPrompt + (if f.callKind == Some(Main) then u.promptTokens else 0)
                  && b.mainCompletion == a.mainCompletion + (if f.callKind == Some(Main) then u.completionTokens else 0)
                else
                  b == a.(toolCalls := b.toolCalls))
  {
    assert spans[..j + 1][..j] == spans[..j];
  }

  lemma AddToModels(a: map<(Session, string), ModelUse>, b: map<(Session, string), ModelUse>, turns: seq<Turn>,
                    session: Session, spans: seq<Span>, j: nat)
    requires j < |spans| && Folded(a, turns, session, spans[..j])
    requires var f := spans[j].fixed;
             if f.kind == LlmSpan && f.usage.Some? && f.model != "" then
               var mu, u := UseOf(a, (session, f.model)), f.usage.value;
               b == a[(session, f.model) := ModelUse(mu.calls + 1, mu.prompt + u.promptTokens, mu.completion + u.completionTokens)]
             else b == a
    ensures Folded(b, turns, session, spans[..j + 1])
  {
    hide ModelUseOf, SumSpans;
    assert spans[..j + 1] == spans[..j] + [spans[j]];
    forall s, model | model != "" ensures UseOf(b, (s, model)) == UseSoFar(turns, session, spans[..j + 1], s, model) {
      assert UseOf(a, (s, model)) == UseSoFar(turns, session, spans[..j], s, model);
      SumSnoc(spans[..j], spans[j], ModelCalls(model));
      SumSnoc(spans[..j], spans[j], ModelPrompt(model));
      SumSnoc(spans[..j], spans[j], ModelCompletion(model));
    }
  }
}
