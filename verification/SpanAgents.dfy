/** How long an agent span lasts: it starts with its thread's first call and reaches to the
    last call of the thread that came later than that. */
module SpanAgents {
  import opened Llm
  import opened DeriveModel
  import opened SpanModel
  import opened SpanQuiet
  import opened SpanPlaces
  import SpanPresence
  import SpanPrompts
  import WalkShape

  // ---------------------------------------------------------------- the reference

  ghost predicate FirstOfThread(o: seq<Call>, i: int, k: Key) {
    0 <= i < |o| && ThreadKey(o[i]) == k && forall j | 0 <= j < i :: ThreadKey(o[j]) != k
  }

  /** Call j is the last of its thread, in this order, to come after the start. */
  ghost predicate LastAfter(o: seq<Call>, j: int, k: Key, start: int) {
    && 0 <= j < |o| && ThreadKey(o[j]) == k && o[j].at > start
    && forall m | j < m < |o| && ThreadKey(o[m]) == k :: o[m].at <= start
  }

  ghost predicate Lasted(o: seq<Call>, k: Key, start: int, duration: int) {
    || (duration == 0 && forall e | e in o && ThreadKey(e) == k :: e.at <= start)
    || exists j :: LastAfter(o, j, k, start) && duration == o[j].at - start
  }

  ghost predicate Timed(o: seq<Call>, k: Key, sp: Span) {
    exists i :: FirstOfThread(o, i, k) && sp.fixed.startedAt == o[i].at && Lasted(o, k, o[i].at, sp.duration)
  }

  /** The agents are those of the threads called so far, each timed by its thread's calls. */
  ghost predicate AgentsTimed(em: Em, done: seq<Call>)
    requires Valid(em)
  {
    && (forall c | c in done :: ThreadKey(c) in em.agents)
    && forall k | k in em.agents :: AgentTimed(em, done, k)
  }

  ghost predicate AgentTimed(em: Em, done: seq<Call>, k: Key)
    requires Valid(em) && k in em.agents
  {
    Timed(done, k, AgentOf(em, k))
  }

  // ---------------------------------------------------------------- what a thread call leaves alone

  lemma KeptOn(a: seq<Turn>, b: seq<Turn>, c: seq<Turn>)
    requires OnlyToolsChange(a, b) && OnlyToolsChange(b, c)
    ensures OnlyToolsChange(a, c)
  {
    forall t | 0 <= t < |a| ensures SpansKept(a[t].spans, c[t].spans) {
      assert SpansKept(a[t].spans, b[t].spans) && SpansKept(b[t].spans, c[t].spans);
    }
  }

  lemma EnsureTraceKeeps(em: Em, c: Call)
    requires Valid(em) && c.chain != []
    ensures OnlyToolsChange(em.turns, EnsureTrace(em, c).turns)
  {
    hide Valid, Grows, SeamLink, TurnOpenedBy;
    if c.session !in em.cur {
      WalkShape.OpenedByCall(c, None);
      var pushed := PushTurn(em, TurnOpenedBy(c, None));
      assert OnlyToolsChange(em.turns, pushed.turns);
      if c.session in em.seam { SeamPlace(em, c.session); }
    }
  }

  lemma EnsureAgentKeeps(em: Em, c: Call)
    requires Valid(em) && c.chain != []
    ensures OnlyToolsChange(em.turns, EnsureAgent(em, c).turns)
  {
    hide Valid, Grows, EnsureTrace, AddLink, AddSpan, Anchor, Quiet, OnlyToolsChange;
    var task := Key(c.session, Anchor(c));
    QuietItself(em);
    if ThreadKey(c) !in em.agents {
      if task in em.tools {
        ToolPlace(em, task);
        var t := em.tools[task].turn;
        var l := Link(em.turns[t].traceId, SubAgent(c.thread), em.turns[t].traceId, ToolCall(task.id), Rejoin);
        var linked := AddLink(em, t, l);
        TurnStays(em, linked, t);
        AddLinkQuietly(em, t, l);
        AddSpanQuietly(linked, t, AgentSpanOf(c, ToolCall(task.id)));
        KeptOn(em.turns, linked.turns, EnsureAgent(em, c).turns);
      } else {
        EnsureTraceKeeps(em, c);
        var host := EnsureTrace(em, c);
        CurrentTurn(host, c.session);
        AddSpanQuietly(host, host.cur[c.session], AgentSpanOf(c, RootIdAt(host, host.cur[c.session])));
        KeptOn(em.turns, host.turns, EnsureAgent(em, c).turns);
      }
    }
  }

  lemma AgentKept(a: Em, b: Em, k: Key)
    requires Valid(a) && Valid(b) && Grows(a, b) && k in a.agents && OnlyToolsChange(a.turns, b.turns)
    ensures k in b.agents && AgentOf(b, k) == AgentOf(a, k)
  {
    AgentPlace(a, k);
    hide Valid;
    var r := a.agents[k];
    assert SpansKept(a.turns[r.turn].spans, b.turns[r.turn].spans);
  }

  // ---------------------------------------------------------------- one thread call

  function Stretched(sp: Span, at: int): Span {
    if at > sp.fixed.startedAt then sp.(duration := at - sp.fixed.startedAt) else sp
  }

  lemma StretchTimes(em: Em, c: Call, k: Key)
    requires Valid(em) && ThreadKey(c) in em.agents && k in em.agents
    ensures AgentOf(StretchAgent(em, c), k) == if k == ThreadKey(c) then Stretched(AgentOf(em, k), c.at) else AgentOf(em, k)
  {
    hide Valid, Grows, SetSpan;
    AgentPlace(em, k);
    AgentPlace(em, ThreadKey(c));
    var sp := SpanAt(em, em.agents[ThreadKey(c)]);
    if c.at > sp.fixed.startedAt {
      var stretched := sp.(duration := c.at - sp.fixed.startedAt);
      OneSpanSet(em, em.agents[ThreadKey(c)], stretched, em.agents[k]);
      AgentPlace(StretchAgent(em, c), k);
    }
  }

  lemma OneSpanSet(em: Em, r: Ref, sp: Span, q: Ref)
    requires Valid(em) && r.turn < |em.turns| && r.span < |em.turns[r.turn].spans| && SpanGrows(SpanAt(em, r), sp)
    requires q.turn < |em.turns| && q.span < |em.turns[q.turn].spans|
    ensures var e := SetSpan(em, r, sp);
            && |e.turns| == |em.turns| && |e.turns[q.turn].spans| == |em.turns[q.turn].spans| && e.agents == em.agents
            && SpanAt(e, q) == if q == r then sp else SpanAt(em, q)
  {
    hide Valid, Grows;
  }

  /** A thread call stretches its own agent span, new or not, and no other. */
  lemma ThreadCallTimes(em: Em, c: Call, k: Key)
    requires Valid(em) && c.Valid() && c.chain != [] && (k in em.agents || k == ThreadKey(c))
    ensures k in ThreadCall(em, c).agents
    ensures k in em.agents ==>
              AgentOf(ThreadCall(em, c), k) == if k == ThreadKey(c) then Stretched(AgentOf(em, k), c.at) else AgentOf(em, k)
    ensures k !in em.agents ==>
              AgentOf(ThreadCall(em, c), k).fixed.startedAt == c.at && AgentOf(ThreadCall(em, c), k).duration == 0
  {
    hide Valid, Grows, EnsureAgent, EmitConversation, StretchAgent, AgentOf, OnlyToolsChange, Quiet, AgentHome;
    var hosted := EnsureAgent(em, c);
    AgentPlace(hosted, ThreadKey(c));
    var t := hosted.agents[ThreadKey(c)].turn;
    var spoken := EmitConversation(hosted, c, t, SubAgent(c.thread));
    if k in em.agents {
      EnsureAgentKeeps(em, c);
      AgentKept(em, hosted, k);
    } else {
      NewAgentHome(em, c);
    }
    ConversationQuietly(hosted, c, t, SubAgent(c.thread));
    AgentKept(hosted, spoken, k);
    StretchTimes(spoken, c, k);
  }

  // ---------------------------------------------------------------- over the phase

  lemma LastedSnoc(o: seq<Call>, c: Call, k: Key, sp: Span)
    requires Lasted(o, k, sp.fixed.startedAt, sp.duration)
    ensures Lasted(o + [c], k, sp.fixed.startedAt, if k == ThreadKey(c) then Stretched(sp, c.at).duration else sp.duration)
  {
    var p, start := o + [c], sp.fixed.startedAt;
    if k == ThreadKey(c) && c.at > start {
      assert LastAfter(p, |o|, k, start);
    } else if j :| LastAfter(o, j, k, start) && sp.duration == o[j].at - start {
      assert LastAfter(p, j, k, start);
    }
  }

  lemma TimedSnoc(o: seq<Call>, c: Call, k: Key, sp: Span)
    requires Timed(o, k, sp)
    ensures Timed(o + [c], k, if k == ThreadKey(c) then Stretched(sp, c.at) else sp)
  {
    hide Lasted;
    var i :| FirstOfThread(o, i, k) && sp.fixed.startedAt == o[i].at && Lasted(o, k, o[i].at, sp.duration);
    LastedSnoc(o, c, k, sp);
    assert FirstOfThread(o + [c], i, k);
  }

  lemma TimedFirst(o: seq<Call>, c: Call, sp: Span)
    requires (forall e | e in o :: ThreadKey(e) != ThreadKey(c)) && sp.fixed.startedAt == c.at && sp.duration == 0
    ensures Timed(o + [c], ThreadKey(c), sp)
  {
    assert FirstOfThread(o + [c], |o|, ThreadKey(c));
  }

  lemma ThreadCallTimed(em: Em, c: Call, done: seq<Call>)
    requires Valid(em) && c.Valid() && c.chain != [] && AgentsTimed(em, done)
    ensures AgentsTimed(ThreadCall(em, c), done + [c])
  {
    hide Valid, Grows, ThreadCall, Timed, AgentOf, Emitted;
    var r := ThreadCall(em, c);
    ThreadCallKeys(em, c);
    forall k | k in r.agents ensures AgentTimed(r, done + [c], k) {
      assert k in em.agents || k == ThreadKey(c);
      ThreadCallTimes(em, c, k);
      if k in em.agents {
        assert AgentTimed(em, done, k);
        TimedSnoc(done, c, k, AgentOf(em, k));
      } else {
        TimedFirst(done, c, AgentOf(r, k));
      }
    }
  }

  lemma {:induction false} DegradeTimed(em: Em, o: seq<Call>, i: nat)
    requires Valid(em) && Emittable(o) && i <= |o| && AgentsTimed(em, o[..i])
    ensures AgentsTimed(Degrade(em, o, i), o)
    decreases |o| - i
  {
    hide Valid, Grows, ThreadCall, AgentsTimed;
    if i == |o| {
      assert o[..i] == o;
    } else {
      ThreadCallTimed(em, o[i], o[..i]);
      assert o[..i + 1] == o[..i] + [o[i]];
      DegradeTimed(ThreadCall(em, o[i]), o, i + 1);
    }
  }

  lemma ShadowCallKeeps(em: Em, c: Call)
    requires Valid(em) && c.Valid() && c.chain != []
    ensures OnlyToolsChange(em.turns, ShadowCall(em, c).turns)
  {
    hide Valid, Grows, EnsureTrace, AddLink, AddSpan, TraceAt, LlmSpanOf, FreshInput, Quiet, OnlyToolsChange;
    var key := Key(c.session, c.anchor);
    if key in em.tools {
      ToolPlace(em, key);
      var t := em.tools[key].turn;
      var sp := LlmSpanOf(c, ToolCall(key.id), FreshInput(c));
      var added := AddSpan(em, t, sp);
      var l := Link(em.turns[t].traceId, LlmCall(Identity(c)), em.turns[t].traceId, ToolCall(key.id), Verdict);
      AddSpanQuietly(em, t, sp);
      AddLinkQuietly(added, t, l);
      QuietOn(em, added, AddLink(added, t, l));
    } else {
      EnsureTraceKeeps(em, c);
      var host := EnsureTrace(em, c);
      CurrentTurn(host, c.session);
      var t := TraceAt(host, c);
      AddSpanQuietly(CountOrphan(host), t, LlmSpanOf(c, RootIdAt(host, t), FreshInput(c)));
      KeptOn(em.turns, host.turns, ShadowCall(em, c).turns);
    }
  }

  lemma {:induction false} ShadowsKeep(em: Em, calls: seq<Call>, i: nat)
    requires Valid(em) && Emittable(calls) && i <= |calls|
    ensures OnlyToolsChange(em.turns, Shadows(em, calls, i).turns) && Shadows(em, calls, i).agents == em.agents
    decreases |calls| - i
  {
    hide Valid, Grows, ShadowCall, OnlyToolsChange, Quiet;
    if i == |calls| {
      QuietItself(em);
    } else {
      ShadowCallKeeps(em, calls[i]);
      ShadowsKeep(ShadowCall(em, calls[i]), calls, i + 1);
      KeptOn(em.turns, ShadowCall(em, calls[i]).turns, Shadows(em, calls, i).turns);
    }
  }

  /** Each thread has one agent span. It starts with the first call of the thread the walk
      runs and lasts to the last one that came later, whatever came in between. */
  lemma AgentsSpanTheirThreads(calls: seq<Call>) returns (o: seq<Call>)
    requires WellFormed(calls)
    ensures multiset(o) == multiset(Only(calls, IsThread)) && Emittable(o)
    ensures ThreadPhase(Spine(calls, |calls|), Only(calls, IsThread)) == Degrade(Spine(calls, |calls|), o, 0)
    ensures AgentsTimed(Walk(calls), o)
  {
    hide Valid, Grows, Spine, ThreadPhase, Degrade, Shadows, Only, Timed, AgentOf, OnlyToolsChange;
    var spine := Spine(calls, |calls|);
    o := SpanPresence.ThreadOrder(calls);
    SpineHasNoAgents(calls, |calls|);
    DegradeTimed(spine, o, 0);
    var threaded := Degrade(spine, o, 0);
    ShadowsKeep(threaded, Only(calls, IsShadow), 0);
    forall k | k in Walk(calls).agents ensures AgentTimed(Walk(calls), o, k) {
      AgentKept(threaded, Walk(calls), k);
      assert AgentTimed(threaded, o, k);
    }
  }
}
