/** Which traces a walk opens depends only on which sessions, tools and threads are already
    known: the steps of the walk preserve agreement on those. */
module WalkShape {
  import opened Llm
  import opened DeriveModel
  import opened SpanModel

  ghost predicate SameHead(x: Turn, y: Turn) {
    x.traceId == y.traceId && x.session == y.session && x.prompt == y.prompt && x.startedAt == y.startedAt
  }

  /** The same traces in the same order; their spans may differ. */
  ghost predicate SameTraces(x: seq<Turn>, y: seq<Turn>) {
    |x| == |y| && forall t | 0 <= t < |x| :: SameHead(x[t], y[t])
  }

  /** Equal as far as the opening of traces can tell. */
  ghost predicate Alike(a: Em, b: Em) {
    && a.cur.Keys == b.cur.Keys && a.tools.Keys == b.tools.Keys && a.agents.Keys == b.agents.Keys
    && SameTraces(a.turns, b.turns)
  }

  ghost predicate Opened(x: seq<Turn>, y: seq<Turn>, head: Option<Turn>) {
    match head
    case None => SameTraces(x, y)
    case Some(h) => |y| == |x| + 1 && SameTraces(x, y[..|x|]) && SameHead(h, y[|x|])
  }

  /** What a step adds: at most one trace, and the given sessions, tools and threads. */
  ghost predicate Moves(a: Em, b: Em, head: Option<Turn>, sessions: set<Session>, tools: set<Key>, agents: set<Key>) {
    && b.cur.Keys == a.cur.Keys + sessions
    && b.tools.Keys == a.tools.Keys + tools
    && b.agents.Keys == a.agents.Keys + agents
    && Opened(a.turns, b.turns, head)
  }

  lemma MovesAlike(a: Em, b: Em, x: Em, y: Em, head: Option<Turn>, sessions: set<Session>, tools: set<Key>, agents: set<Key>)
    requires Alike(a, b) && Moves(a, x, head, sessions, tools, agents) && Moves(b, y, head, sessions, tools, agents)
    ensures Alike(x, y)
  {
    forall t | 0 <= t < |x.turns| ensures SameHead(x.turns[t], y.turns[t]) {
      if t < |a.turns| { assert SameHead(a.turns[t], b.turns[t]); }
      if head.Some? && t < |a.turns| {
        assert SameHead(a.turns[t], x.turns[..|a.turns|][t]) && SameHead(b.turns[t], y.turns[..|b.turns|][t]);
      }
    }
  }

  /** A second part of a step that opens nothing. */
  lemma MovesOn(a: Em, b: Em, c: Em, head: Option<Turn>, sessions: set<Session>, tools: set<Key>, agents: set<Key>)
    requires Moves(a, b, head, sessions, {}, {}) && SameTraces(b.turns, c.turns) && c.cur.Keys == b.cur.Keys
    requires c.tools.Keys == b.tools.Keys + tools && c.agents.Keys == b.agents.Keys + agents
    ensures Moves(a, c, head, sessions, tools, agents)
  {
    forall t | 0 <= t < |a.turns| ensures SameHead(a.turns[t], c.turns[t]) {
      assert SameHead(b.turns[t], c.turns[t]);
      if head.Some? { assert SameHead(a.turns[t], b.turns[..|a.turns|][t]); }
    }
  }

  lemma GrowsSame(a: Em, b: Em)
    requires Grows(a, b) && |b.turns| == |a.turns|
    ensures SameTraces(a.turns, b.turns)
  {
    forall t | 0 <= t < |a.turns| ensures SameHead(a.turns[t], b.turns[t]) {
      assert TurnGrows(a.turns[t], b.turns[t]);
    }
  }

  lemma GainsKeys(a: map<Key, Ref>, b: map<Key, Ref>, keys: set<Key>)
    requires Gains(a, b, keys)
    ensures b.Keys == a.Keys + keys
  {
    assert forall k :: k in b.Keys <==> k in b;
  }

  // ---------------------------------------------------------------- opening

  lemma OpenTraceMoves(em: Em, c: Call, prompt: Option<Hash>)
    requires Valid(em) && c.chain != []
    ensures Moves(em, OpenTrace(em, c, prompt), Some(TurnOpenedBy(c, prompt)), {c.session}, {}, {})
  {
    hide Valid, Grows, CloseSeam, TurnOpenedBy;
    var h := TurnOpenedBy(c, prompt);
    assert h.session == c.session && h.spans != [] by { OpenedByCall(c, prompt); }
    var pushed := PushTurn(em, h);
    assert Moves(em, pushed, Some(h), {c.session}, {}, {}) by { assert pushed.turns[..|em.turns|] == em.turns; }
    if c.session in em.seam {
      var r := CloseSeam(pushed, c, |em.turns|);
      GrowsSame(pushed, r);
      MovesOn(em, pushed, r, Some(h), {c.session}, {}, {});
    }
  }

  lemma OpenedByCall(c: Call, prompt: Option<Hash>)
    requires c.chain != []
    ensures TurnOpenedBy(c, prompt).session == c.session && TurnOpenedBy(c, prompt).spans != []
  {
  }

  function EnsureOpens(em: Em, c: Call): Option<Turn>
    requires c.chain != []
  {
    if c.session in em.cur then None else Some(TurnOpenedBy(c, None))
  }

  lemma EnsureTraceMoves(em: Em, c: Call)
    requires Valid(em) && c.chain != []
    ensures Moves(em, EnsureTrace(em, c), EnsureOpens(em, c), {c.session}, {}, {})
  {
    hide Valid, Grows, OpenTrace, TurnOpenedBy;
    if c.session !in em.cur {
      OpenTraceMoves(em, c, None);
      var started := OpenTrace(em, c, None);
      var r := MarkSynthetic(started, |em.turns|, ShadowOpener);
      GrowsSame(started, r);
      MovesOn(em, started, r, EnsureOpens(em, c), {c.session}, {}, {});
    }
  }

  // ---------------------------------------------------------------- the four call shapes

  function MainOpens(em: Em, c: Call): Option<Turn>
    requires c.Valid() && c.chain != []
  {
    if c.session !in em.cur || Prompt(c).Some? then Some(TurnOpenedBy(c, Prompt(c))) else None
  }

  lemma MainMoves(em: Em, c: Call)
    requires Valid(em) && c.Valid() && c.chain != []
    ensures Moves(em, MainCall(em, c), MainOpens(em, c), {c.session}, Emitted(c), {})
  {
    hide Valid, Grows, OpenTrace, EmitConversation, Prompt, Emitted, TurnOpenedBy;
    var started := if MainOpens(em, c).Some? then OpenTrace(em, c, Prompt(c)) else em;
    if MainOpens(em, c).Some? { OpenTraceMoves(em, c, Prompt(c)); }
    CurrentTurn(started, c.session);
    var t := started.cur[c.session];
    var r := EmitConversation(started, c, t, RootIdAt(started, t));
    EmitConversationKeys(started, c, t, RootIdAt(started, t));
    GainsKeys(started.tools, r.tools, Emitted(c));
    GrowsSame(started, r);
    MovesOn(em, started, r, MainOpens(em, c), {c.session}, Emitted(c), {});
  }

  lemma CompactionMoves(em: Em, c: Call)
    requires Valid(em) && c.chain != []
    ensures Moves(em, CompactionCall(em, c), EnsureOpens(em, c), {c.session}, {}, {})
  {
    hide Valid, Grows, EnsureTrace, LlmSpanOf, TurnOpenedBy;
    var host := EnsureTrace(em, c);
    EnsureTraceMoves(em, c);
    CurrentTurn(host, c.session);
    var t := host.cur[c.session];
    var added := AddSpan(host, t, LlmSpanOf(c, RootIdAt(host, t), []));
    GrowsSame(host, added);
    MovesOn(em, host, CompactionCall(em, c), EnsureOpens(em, c), {c.session}, {}, {});
  }

  /** A thread call asks for its session's trace only when it has neither an agent span nor
      an anchor tool. */
  predicate Rootless(em: Em, c: Call) {
    ThreadKey(c) !in em.agents && Key(c.session, Anchor(c)) !in em.tools
  }

  function ThreadOpens(em: Em, c: Call): Option<Turn>
    requires c.chain != []
  {
    if Rootless(em, c) then EnsureOpens(em, c) else None
  }

  function Asked(c: Call, asks: bool): set<Session> {
    if asks then {c.session} else {}
  }

  lemma SpawnAgentMoves(em: Em, c: Call, task: Key)
    requires Valid(em) && task in em.tools && task.session == c.session && ThreadKey(c) !in em.agents
    ensures Moves(em, SpawnAgent(em, c, task), None, {}, {}, {ThreadKey(c)})
  {
    hide Valid, Grows, TurnsGrow;
    ToolPlace(em, task);
    var t := em.tools[task].turn;
    var id := em.turns[t].traceId;
    var linked := AddLink(em, t, Link(id, SubAgent(c.thread), id, ToolCall(task.id), Rejoin));
    TurnStays(em, linked, t);
    GrowsSame(em, SpawnAgent(em, c, task));
  }

  lemma RootedAgentMoves(em: Em, c: Call)
    requires Valid(em) && c.chain != [] && ThreadKey(c) !in em.agents
    ensures Moves(em, RootedAgent(em, c), EnsureOpens(em, c), {c.session}, {}, {ThreadKey(c)})
  {
    hide Valid, Grows, EnsureTrace, TurnOpenedBy;
    var host := EnsureTrace(em, c);
    EnsureTraceMoves(em, c);
    CurrentTurn(host, c.session);
    var t := host.cur[c.session];
    var r := AddAgent(host, t, AgentSpanOf(c, RootIdAt(host, t)), ThreadKey(c));
    GrowsSame(host, r);
    MovesOn(em, host, r, EnsureOpens(em, c), {c.session}, {}, {ThreadKey(c)});
  }

  lemma EnsureAgentMoves(em: Em, c: Call)
    requires Valid(em) && c.chain != []
    ensures Moves(em, EnsureAgent(em, c), ThreadOpens(em, c), Asked(c, Rootless(em, c)), {}, {ThreadKey(c)})
  {
    hide Valid, Grows, SpawnAgent, RootedAgent, EnsureOpens, Anchor;
    if ThreadKey(c) !in em.agents {
      if Rootless(em, c) {
        RootedAgentMoves(em, c);
      } else {
        SpawnAgentMoves(em, c, Key(c.session, Anchor(c)));
      }
    }
  }

  lemma StretchAgentMoves(em: Em, c: Call)
    requires Valid(em) && ThreadKey(c) in em.agents
    ensures StretchAgent(em, c).cur == em.cur && |StretchAgent(em, c).turns| == |em.turns|
  {
    hide Valid, Grows, TurnsGrow;
    AgentPlace(em, ThreadKey(c));
  }

  lemma ThreadMoves(em: Em, c: Call)
    requires Valid(em) && c.Valid() && c.chain != []
    ensures Moves(em, ThreadCall(em, c), ThreadOpens(em, c), Asked(c, Rootless(em, c)), Emitted(c), {ThreadKey(c)})
  {
    hide Valid, Grows, EnsureAgent, EmitConversation, StretchAgent, Emitted, TurnOpenedBy, Rootless;
    var hosted := EnsureAgent(em, c);
    EnsureAgentMoves(em, c);
    AgentPlace(hosted, ThreadKey(c));
    var t := hosted.agents[ThreadKey(c)].turn;
    var spoken := EmitConversation(hosted, c, t, SubAgent(c.thread));
    EmitConversationKeys(hosted, c, t, SubAgent(c.thread));
    GainsKeys(hosted.tools, spoken.tools, Emitted(c));
    var r := StretchAgent(spoken, c);
    StretchAgentMoves(spoken, c);
    GrowsTransitive(hosted, spoken, r);
    GrowsSame(hosted, r);
    MovesAgain(em, hosted, r, ThreadOpens(em, c), Asked(c, Rootless(em, c)), Emitted(c), {ThreadKey(c)});
  }

  lemma MovesAgain(a: Em, b: Em, c: Em, head: Option<Turn>, sessions: set<Session>, tools: set<Key>, agents: set<Key>)
    requires Moves(a, b, head, sessions, {}, agents) && SameTraces(b.turns, c.turns) && c.cur.Keys == b.cur.Keys
    requires c.tools.Keys == b.tools.Keys + tools && c.agents.Keys == b.agents.Keys
    ensures Moves(a, c, head, sessions, tools, agents)
  {
    MovesOn(a, b.(agents := a.agents), c.(agents := a.agents), head, sessions, tools, {});
  }

  predicate Unhosted(em: Em, c: Call) {
    Key(c.session, c.anchor) !in em.tools
  }

  function ShadowOpens(em: Em, c: Call): Option<Turn>
    requires c.chain != []
  {
    if Unhosted(em, c) then EnsureOpens(em, c) else None
  }

  lemma ShadowMoves(em: Em, c: Call)
    requires Valid(em) && c.Valid() && c.chain != []
    ensures Moves(em, ShadowCall(em, c), ShadowOpens(em, c), Asked(c, Unhosted(em, c)), {}, {})
  {
    hide Valid, Grows, EnsureTrace, LlmSpanOf, FreshInput, TurnOpenedBy, TraceAt;
    if Unhosted(em, c) {
      var host := EnsureTrace(em, c);
      EnsureTraceMoves(em, c);
      CurrentTurn(host, c.session);
      var t := TraceAt(host, c);
      var counted := CountOrphan(host);
      var r := AddSpan(counted, t, LlmSpanOf(c, RootIdAt(host, t), FreshInput(c)));
      GrowsSame(counted, r);
      MovesOn(em, host, r, ShadowOpens(em, c), {c.session}, {}, {});
    } else {
      var key := Key(c.session, c.anchor);
      ToolPlace(em, key);
      var t := em.tools[key].turn;
      var id := em.turns[t].traceId;
      var added := AddSpan(em, t, LlmSpanOf(c, ToolCall(key.id), FreshInput(c)));
      var r := AddLink(added, t, Link(id, LlmCall(Identity(c)), id, ToolCall(key.id), Verdict));
      GrowsTransitive(em, added, r);
      GrowsSame(em, r);
    }
  }

  // ---------------------------------------------------------------- agreement is preserved

  lemma AlikeOpens(a: Em, b: Em, c: Call)
    requires Alike(a, b) && c.Valid() && c.chain != []
    ensures MainOpens(a, c) == MainOpens(b, c) && EnsureOpens(a, c) == EnsureOpens(b, c)
    ensures Rootless(a, c) == Rootless(b, c) && Unhosted(a, c) == Unhosted(b, c) && Ready(a, c) == Ready(b, c)
  {
    hide Prompt, TurnOpenedBy, Anchor, SameTraces;
    assert c.session in a.cur.Keys <==> c.session in b.cur.Keys;
    assert ThreadKey(c) in a.agents.Keys <==> ThreadKey(c) in b.agents.Keys;
    assert Key(c.session, Anchor(c)) in a.tools.Keys <==> Key(c.session, Anchor(c)) in b.tools.Keys;
    assert Key(c.session, c.anchor) in a.tools.Keys <==> Key(c.session, c.anchor) in b.tools.Keys;
  }

  lemma StepsAlike(a: Em, b: Em, c: Call)
    requires Valid(a) && Valid(b) && Alike(a, b) && c.Valid() && c.chain != []
    ensures Alike(MainCall(a, c), MainCall(b, c)) && Alike(CompactionCall(a, c), CompactionCall(b, c))
    ensures Alike(ThreadCall(a, c), ThreadCall(b, c)) && Alike(ShadowCall(a, c), ShadowCall(b, c))
  {
    hide Valid, Alike, Moves, MainCall, CompactionCall, ThreadCall, ShadowCall, MainOpens, EnsureOpens, Rootless, Unhosted, Emitted;
    AlikeOpens(a, b, c);
    MainMoves(a, c);
    MainMoves(b, c);
    MovesAlike(a, b, MainCall(a, c), MainCall(b, c), MainOpens(a, c), {c.session}, Emitted(c), {});
    CompactionMoves(a, c);
    CompactionMoves(b, c);
    MovesAlike(a, b, CompactionCall(a, c), CompactionCall(b, c), EnsureOpens(a, c), {c.session}, {}, {});
    ThreadMoves(a, c);
    ThreadMoves(b, c);
    MovesAlike(a, b, ThreadCall(a, c), ThreadCall(b, c), ThreadOpens(a, c), Asked(c, Rootless(a, c)), Emitted(c), {ThreadKey(c)});
    ShadowMoves(a, c);
    ShadowMoves(b, c);
    MovesAlike(a, b, ShadowCall(a, c), ShadowCall(b, c), ShadowOpens(a, c), Asked(c, Unhosted(a, c)), {}, {});
  }

  lemma SpineStepAlike(a: Em, b: Em, c: Call)
    requires Valid(a) && Valid(b) && Alike(a, b) && c.Valid()
    ensures Alike(SpineStep(a, c), SpineStep(b, c))
  {
    hide Valid, Alike, MainCall, CompactionCall, ThreadCall, ShadowCall, IsSpine;
    if c.chain != [] { StepsAlike(a, b, c); }
  }

  lemma {:induction false} PassAlike(a: Em, b: Em, pending: seq<Call>, i: nat, blocked: seq<Call>)
    requires Valid(a) && Valid(b) && Alike(a, b) && i <= |pending| && Emittable(pending) && Emittable(blocked)
    ensures var x, y := Pass(a, pending, i, blocked), Pass(b, pending, i, blocked); x.1 == y.1 && Alike(x.0, y.0)
    decreases |pending| - i
  {
    hide Valid, Grows, Alike, ThreadCall, Ready;
    if i < |pending| {
      AlikeOpens(a, b, pending[i]);
      if Ready(a, pending[i]) {
        StepsAlike(a, b, pending[i]);
        PassAlike(ThreadCall(a, pending[i]), ThreadCall(b, pending[i]), pending, i + 1, blocked);
      } else {
        PassAlike(a, b, pending, i + 1, blocked + [pending[i]]);
      }
    }
  }

  lemma {:induction false} FixpointAlike(a: Em, b: Em, pending: seq<Call>)
    requires Valid(a) && Valid(b) && Alike(a, b) && Emittable(pending)
    ensures var x, y := Fixpoint(a, pending), Fixpoint(b, pending); x.1 == y.1 && Alike(x.0, y.0)
    decreases |pending|
  {
    hide Valid, Grows, Alike, Pass;
    if pending != [] {
      PassAlike(a, b, pending, 0, []);
      var x, y := Pass(a, pending, 0, []), Pass(b, pending, 0, []);
      if |x.1| != |pending| { FixpointAlike(x.0, y.0, x.1); }
    }
  }

  lemma {:induction false} DegradeAlike(a: Em, b: Em, pending: seq<Call>, i: nat)
    requires Valid(a) && Valid(b) && Alike(a, b) && Emittable(pending) && i <= |pending|
    ensures Alike(Degrade(a, pending, i), Degrade(b, pending, i))
    decreases |pending| - i
  {
    hide Valid, Grows, Alike, ThreadCall;
    if i < |pending| {
      StepsAlike(a, b, pending[i]);
      DegradeAlike(ThreadCall(a, pending[i]), ThreadCall(b, pending[i]), pending, i + 1);
    }
  }

  lemma {:induction false} ShadowsAlike(a: Em, b: Em, calls: seq<Call>, i: nat)
    requires Valid(a) && Valid(b) && Alike(a, b) && Emittable(calls) && i <= |calls|
    ensures Alike(Shadows(a, calls, i), Shadows(b, calls, i))
    decreases |calls| - i
  {
    hide Valid, Grows, Alike, ShadowCall;
    if i < |calls| {
      StepsAlike(a, b, calls[i]);
      ShadowsAlike(ShadowCall(a, calls[i]), ShadowCall(b, calls[i]), calls, i + 1);
    }
  }

  /** What one call does in the spine phase. */
  function SpineStep(em: Em, c: Call): (r: Em)
    requires Valid(em) && c.Valid()
    ensures Valid(r)
  {
    hide Valid, MainCall, CompactionCall;
    if c.chain == [] || !IsSpine(c) then em else if c.kind == Main then MainCall(em, c) else CompactionCall(em, c)
  }

  lemma SpineUnfolds(calls: seq<Call>, n: nat)
    requires WellFormed(calls) && n < |calls|
    ensures calls[n].Valid() && Spine(calls, n + 1) == SpineStep(Spine(calls, n), calls[n])
  {
    hide Valid, MainCall, CompactionCall;
    assert calls[n] in calls;
  }

  /** Walks whose spines are alike and whose thread and shadow calls are the same open the
      same traces. */
  lemma WalksAlike(p: seq<Call>, q: seq<Call>)
    requires WellFormed(p) && WellFormed(q) && Alike(Spine(p, |p|), Spine(q, |q|))
    requires Only(p, IsThread) == Only(q, IsThread) && Only(p, IsShadow) == Only(q, IsShadow)
    ensures SameTraces(Walk(p).turns, Walk(q).turns)
  {
    hide Valid, Grows, Alike, Spine, Fixpoint, Degrade, Shadows;
    var a, b := Spine(p, |p|), Spine(q, |q|);
    var threads, shadows := Only(p, IsThread), Only(p, IsShadow);
    FixpointAlike(a, b, threads);
    var x, y := Fixpoint(a, threads), Fixpoint(b, threads);
    DegradeAlike(x.0, y.0, x.1, 0);
    ShadowsAlike(Degrade(x.0, x.1, 0), Degrade(y.0, y.1, 0), shadows, 0);
    AlikeTraces(Walk(p), Walk(q));
  }

  lemma AlikeTraces(a: Em, b: Em)
    requires Alike(a, b)
    ensures SameTraces(a.turns, b.turns)
  {
  }
}
