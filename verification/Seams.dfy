/** Compaction seams over whole runs: which seam a session has armed can be read off its
    calls alone, and only the spine ever touches one. */
module Seams {
  import opened Llm
  import opened DeriveModel
  import opened SpanModel
  import SpanQuiet
  import SpanWalk

  // ---------------------------------------------------------------- who leaves seams alone

  lemma ThreadCallSeam(em: Em, c: Call)
    requires Valid(em) && c.Valid() && c.chain != []
    ensures SpanModel.ThreadCall(em, c).seam == em.seam
  {
    hide Valid, Grows, EnsureAgent, EmitConversation, StretchAgent, SpanQuiet.Quiet, SpanQuiet.SameFiling;
    var hosted := EnsureAgent(em, c);
    EnsureAgentSeam(em, c);
    AgentPlace(hosted, ThreadKey(c));
    SpanQuiet.ConversationQuietly(hosted, c, hosted.agents[ThreadKey(c)].turn, SubAgent(c.thread));
    SpanQuiet.StretchQuietly(EmitConversation(hosted, c, hosted.agents[ThreadKey(c)].turn, SubAgent(c.thread)), c);
  }

  lemma EnsureAgentSeam(em: Em, c: Call)
    requires Valid(em) && c.chain != []
    ensures EnsureAgent(em, c).seam == em.seam
  {
    hide Valid, Grows, EnsureTrace, AddLink, AddAgent;
    SpanWalk.EnsureTraceLeavesSeam(em, c);
  }

  lemma ShadowCallSeam(em: Em, c: Call)
    requires Valid(em) && c.Valid() && c.chain != []
    ensures SpanModel.ShadowCall(em, c).seam == em.seam
  {
    hide Valid, Grows, EnsureTrace, AddLink, AddSpan, TraceAt, CountOrphan;
    SpanWalk.EnsureTraceLeavesSeam(em, c);
  }

  // ---------------------------------------------------------------- the later phases

  lemma {:induction false} PassSeam(em: Em, pending: seq<Call>, i: nat, blocked: seq<Call>)
    requires Valid(em) && i <= |pending| && Emittable(pending) && Emittable(blocked)
    ensures Pass(em, pending, i, blocked).0.seam == em.seam
    decreases |pending| - i
  {
    hide Valid, Grows, SpanModel.ThreadCall, Ready;
    if i < |pending| {
      if Ready(em, pending[i]) {
        ThreadCallSeam(em, pending[i]);
        PassSeam(SpanModel.ThreadCall(em, pending[i]), pending, i + 1, blocked);
      } else {
        PassSeam(em, pending, i + 1, blocked + [pending[i]]);
      }
    }
  }

  lemma {:induction false} FixpointSeam(em: Em, pending: seq<Call>)
    requires Valid(em) && Emittable(pending)
    ensures Fixpoint(em, pending).0.seam == em.seam
    decreases |pending|
  {
    hide Valid, Grows, Pass;
    if pending != [] {
      var p := Pass(em, pending, 0, []);
      PassSeam(em, pending, 0, []);
      if |p.1| != |pending| { FixpointSeam(p.0, p.1); }
    }
  }

  lemma {:induction false} DegradeSeam(em: Em, pending: seq<Call>, i: nat)
    requires Valid(em) && Emittable(pending) && i <= |pending|
    ensures Degrade(em, pending, i).seam == em.seam
    decreases |pending| - i
  {
    hide Valid, Grows, SpanModel.ThreadCall;
    if i < |pending| {
      ThreadCallSeam(em, pending[i]);
      DegradeSeam(SpanModel.ThreadCall(em, pending[i]), pending, i + 1);
    }
  }

  lemma {:induction false} ShadowsSeam(em: Em, calls: seq<Call>, i: nat)
    requires Valid(em) && Emittable(calls) && i <= |calls|
    ensures Shadows(em, calls, i).seam == em.seam
    decreases |calls| - i
  {
    hide Valid, Grows, SpanModel.ShadowCall;
    if i < |calls| {
      ShadowCallSeam(em, calls[i]);
      ShadowsSeam(SpanModel.ShadowCall(em, calls[i]), calls, i + 1);
    }
  }

  /** Seams are the spine's business: thread and shadow calls neither arm nor close one. */
  lemma OnlyTheSpineMovesSeams(calls: seq<Call>)
    requires WellFormed(calls)
    ensures Walk(calls).seam == Spine(calls, |calls|).seam
  {
    hide Valid, Grows, Spine, Fixpoint, Degrade, Shadows, Only;
    var spine, threads := Spine(calls, |calls|), Only(calls, IsThread);
    var f := Fixpoint(spine, threads);
    FixpointSeam(spine, threads);
    DegradeSeam(f.0, f.1, 0);
    ShadowsSeam(SpanModel.ThreadPhase(spine, threads), Only(calls, IsShadow), 0);
  }

  // ---------------------------------------------------------------- the spine

  /** The compaction call a session is waiting to continue from, read off the calls: the last
      one, unless a prompt has opened a trace since. */
  function Awaiting(calls: seq<Call>, n: nat, s: Session): Option<CallId>
    requires n <= |calls| && WellFormed(calls)
  {
    if n == 0 then None
    else
      var c := calls[n - 1];
      if c.chain == [] || !IsSpine(c) || c.session != s then Awaiting(calls, n - 1, s)
      else if c.kind == Compaction then Some(Identity(c))
      else if Prompt(c).Some? then None
      else Awaiting(calls, n - 1, s)
  }

  /** A session's armed seam is the llm span of that very call. */
  ghost predicate SeamIs(em: Em, s: Session, awaiting: Option<CallId>)
    requires Valid(em)
  {
    && (s in em.seam <==> awaiting.Some?)
    && (s in em.seam ==>
          em.seam[s].turn < |em.turns| && em.seam[s].span < |em.turns[em.seam[s].turn].spans|
          && SpanAt(em, em.seam[s]).fixed.id == LlmCall(awaiting.value))
  }

  lemma SeamStays(a: Em, b: Em, s: Session, awaiting: Option<CallId>)
    requires Valid(a) && Valid(b) && Grows(a, b) && SeamIs(a, s, awaiting)
    requires (s in b.seam <==> s in a.seam) && (s in a.seam ==> b.seam[s] == a.seam[s])
    ensures SeamIs(b, s, awaiting)
  {
    hide Valid;
    if s in a.seam {
      var r := a.seam[s];
      assert TurnGrows(a.turns[r.turn], b.turns[r.turn]);
      assert SpanGrows(a.turns[r.turn].spans[r.span], b.turns[r.turn].spans[r.span]);
    }
  }

  lemma MainCallSeam(em: Em, c: Call)
    requires Valid(em) && c.Valid() && c.chain != []
    ensures SpanModel.MainCall(em, c).seam == if Prompt(c).Some? then em.seam - {c.session} else em.seam
  {
    hide Valid, Grows, Prompt, EmitConversation, OpenTrace;
    OpenTraceSeam(em, c);
    var started := if c.session !in em.cur || Prompt(c).Some? then OpenTrace(em, c, Prompt(c)) else em;
    CurrentTurn(started, c.session);
    var t := started.cur[c.session];
    SpanQuiet.ConversationQuietly(started, c, t, RootIdAt(started, t));
    if c.session in em.seam { SeamPlace(em, c.session); }
  }

  lemma OpenTraceSeam(em: Em, c: Call)
    requires Valid(em) && c.Valid() && c.chain != []
    ensures OpenTrace(em, c, Prompt(c)).seam == em.seam - {c.session}
    ensures c.session !in em.cur ==> em.seam - {c.session} == em.seam
  {
    hide Grows, Prompt;
    if c.session !in em.seam { assert em.seam - {c.session} == em.seam; }
  }

  lemma CompactionCallSeam(em: Em, c: Call)
    requires Valid(em) && c.chain != []
    ensures var r := SpanModel.CompactionCall(em, c);
            && r.seam == em.seam[c.session := r.seam[c.session]]
            && SeamIs(r, c.session, Some(Identity(c))) && r.cross == em.cross
  {
    hide Grows, EnsureTrace, LlmSpanOf;
    SpanWalk.EnsureTraceLeavesSeam(em, c);
    var host := EnsureTrace(em, c);
    CurrentTurn(host, c.session);
    var t := host.cur[c.session];
    var sp := LlmSpanOf(c, RootIdAt(host, t), []);
    assert sp.fixed.id == LlmCall(Identity(c)) && sp.fixed.kind == LlmSpan by { LlmSpanIdentity(c, RootIdAt(host, t)); }
    assert Points(AddSpan(host, t, sp).turns, Ref(t, |host.turns[t].spans|), host.turns[t].session, LlmSpan, LlmCall(Identity(c)));
  }

  lemma LlmSpanIdentity(c: Call, parent: SpanId)
    requires c.chain != []
    ensures LlmSpanOf(c, parent, []).fixed.id == LlmCall(Identity(c)) && LlmSpanOf(c, parent, []).fixed.kind == LlmSpan
  {
  }

  /** For every sequence of calls, a session has a seam armed exactly when it compacted and no
      prompt has opened a trace since, and the seam is the latest compaction's span: a second
      compaction replaces an unclosed first, whose seam is then never linked. */
  lemma {:induction false} SeamFollowsCalls(calls: seq<Call>, n: nat, s: Session)
    requires n <= |calls| && WellFormed(calls)
    ensures SeamIs(Spine(calls, n), s, Awaiting(calls, n, s))
  {
    hide Valid, Grows, SpanModel.MainCall, SpanModel.CompactionCall, Prompt, Identity;
    if n > 0 {
      hide SeamIs;
      SeamFollowsCalls(calls, n - 1, s);
      var em, c := Spine(calls, n - 1), calls[n - 1];
      if c.chain != [] && IsSpine(c) {
        if c.kind == Main {
          MainSeamStep(em, c, s, Awaiting(calls, n - 1, s));
        } else {
          CompactionSeamStep(em, c, s, Awaiting(calls, n - 1, s));
        }
      }
    } else {
      assert SeamIs(EMPTY, s, None) by { NoSeam(s); }
    }
  }

  lemma NoSeam(s: Session)
    ensures Valid(EMPTY) && SeamIs(EMPTY, s, None)
  {
  }

  lemma MainSeamStep(em: Em, c: Call, s: Session, awaiting: Option<CallId>)
    requires Valid(em) && c.Valid() && c.chain != [] && SeamIs(em, s, awaiting)
    ensures SeamIs(SpanModel.MainCall(em, c), s, if c.session == s && Prompt(c).Some? then None else awaiting)
  {
    hide Valid, Grows, SpanModel.MainCall, Prompt;
    MainCallSeam(em, c);
    if !(c.session == s && Prompt(c).Some?) { SeamStays(em, SpanModel.MainCall(em, c), s, awaiting); }
  }

  lemma CompactionSeamStep(em: Em, c: Call, s: Session, awaiting: Option<CallId>)
    requires Valid(em) && c.chain != [] && SeamIs(em, s, awaiting)
    ensures SeamIs(SpanModel.CompactionCall(em, c), s, if c.session == s then Some(Identity(c)) else awaiting)
  {
    hide Valid, Grows, SpanModel.CompactionCall;
    CompactionCallSeam(em, c);
    if c.session != s { SeamStays(em, SpanModel.CompactionCall(em, c), s, awaiting); }
  }
}
