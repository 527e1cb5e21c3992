/** Which human prompts open traces, read off chain positions: one trace per prompt, in the
    order of the spine, and a trace without one only where its session had none. */
module SpanPrompts {
  import opened Llm
  import opened DeriveModel
  import opened SpanModel
  import opened WalkShape
  import ThreadFixpoint

  /** Position i of the request is fresh user input: captured first by this call, a user's, no
      injected context, and nothing the assistant said for the first time after it. */
  ghost predicate NewlySaid(c: Call, i: int)
    ensures NewlySaid(c, i) ==> 0 <= i < |c.chain| - 1
  {
    && 0 <= i < |c.chain| - 1 && i < |c.isNew| && c.isNew[i]
    && c.chain[i].bucket.role == User && !c.chain[i].kind.Injected?
    && forall j | i < j < |c.chain| - 1 && j < |c.isNew| && c.isNew[j] :: c.chain[j].bucket.role != Assistant
  }

  /** Fresh user input that is a prompt: no tool result in it. */
  ghost predicate Genuine(c: Call, i: int)
    ensures Genuine(c, i) ==> 0 <= i < |c.chain| - 1
  {
    NewlySaid(c, i) && forall b | b in c.chain[i].bucket.content :: b.kind != ToolResult
  }

  ghost predicate LastGenuine(c: Call, i: int) {
    0 <= i < |c.chain| && Genuine(c, i) && forall j | i < j < |c.chain| :: !Genuine(c, j)
  }

  lemma {:induction false} LastFreshMeans(c: Call, n: nat)
    requires c.Valid() && n <= |c.chain|
    ensures LastFresh(c, n) >= 0 ==> c.isNew[LastFresh(c, n)] && c.chain[LastFresh(c, n)].bucket.role == Assistant
    ensures forall j | LastFresh(c, n) < j < n && c.isNew[j] :: c.chain[j].bucket.role != Assistant
  {
    if n > 0 { LastFreshMeans(c, n - 1); }
  }

  lemma NewlySaidMeans(c: Call, i: nat)
    requires c.Valid() && i < |c.chain| - 1
    ensures NewlySaid(c, i) <==> FreshUser(c, i)
  {
    LastFreshMeans(c, |c.chain| - 1);
  }

  lemma GenuineMeans(c: Call, i: nat)
    requires c.Valid() && i < |c.chain| - 1
    ensures Genuine(c, i) <==> FreshUser(c, i) && !HasResult(c.chain[i].bucket.content)
  {
    NewlySaidMeans(c, i);
    var blocks := c.chain[i].bucket.content;
    assert HasResult(blocks) <==> exists b :: b in blocks && b.kind == ToolResult;
  }

  lemma {:induction false} FreshPromptMeans(c: Call, n: nat)
    requires c.Valid() && n < |c.chain|
    ensures FreshPrompt(c, n).None? ==> forall i | 0 <= i < n :: !Genuine(c, i)
    ensures FreshPrompt(c, n).Some? ==>
              exists i :: 0 <= i < n && Genuine(c, i) && c.chain[i].hash == FreshPrompt(c, n).value
                          && forall j | i < j < n :: !Genuine(c, j)
  {
    hide Genuine, FreshUser, HasResult;
    if n > 0 {
      FreshPromptMeans(c, n - 1);
      GenuineMeans(c, n - 1);
    }
  }

  /** The prompt a call brings is its last fresh genuine user position. */
  lemma PromptMeans(c: Call, h: Hash)
    requires c.Valid() && c.chain != []
    ensures Prompt(c) == Some(h) <==> exists i :: LastGenuine(c, i) && c.chain[i].hash == h
  {
    NoPromptMeans(c);
    var n := |c.chain| - 1;
    FreshPromptMeans(c, n);
    assert forall i | Genuine(c, i) :: 0 <= i < n;
    if Prompt(c).Some? {
      hide FreshPrompt, Genuine;
      var i :| 0 <= i < n && Genuine(c, i) && c.chain[i].hash == Prompt(c).value && forall j | i < j < n :: !Genuine(c, j);
      assert LastGenuine(c, i);
      forall k | LastGenuine(c, k) ensures k == i {
      }
    }
  }

  lemma NoPromptMeans(c: Call)
    requires c.Valid() && c.chain != []
    ensures Prompt(c) == None <==> forall i :: !Genuine(c, i)
  {
    FreshPromptMeans(c, |c.chain| - 1);
    assert forall i | Genuine(c, i) :: 0 <= i < |c.chain| - 1;
  }

  // ---------------------------------------------------------------- the input shown

  /** A block of the request, by chain position and place within it. */
  datatype Spot = Spot(node: nat, block: nat)

  predicate Before(p: Spot, q: Spot) {
    p.node < q.node || (p.node == q.node && p.block < q.block)
  }

  /** A block of fresh user input other than a tool result. */
  ghost predicate Shown(c: Call, p: Spot)
    ensures Shown(c, p) ==> p.node < |c.chain| - 1 && p.block < |c.chain[p.node].bucket.content|
  {
    && NewlySaid(c, p.node) && p.block < |c.chain[p.node].bucket.content|
    && c.chain[p.node].bucket.content[p.block].kind != ToolResult
  }

  /** out is, in order and each once, the shown blocks that stand before a spot. */
  ghost predicate ShowsUpTo(c: Call, end: Spot, spots: seq<Spot>, out: seq<ContentBlock>) {
    && |spots| == |out|
    && (forall i, j | 0 <= i < j < |spots| :: Before(spots[i], spots[j]))
    && (forall i | 0 <= i < |spots| :: Shown(c, spots[i]) && Before(spots[i], end)
                                       && out[i] == c.chain[spots[i].node].bucket.content[spots[i].block])
    && forall p | Shown(c, p) && Before(p, end) :: p in spots
  }

  ghost predicate InputShown(c: Call, out: seq<ContentBlock>) {
    exists spots :: ShowsUpTo(c, Spot(|c.chain|, 0), spots, out)
  }

  /** Where nothing shown stands between two spots, they bound the same blocks. */
  lemma ShowsFurther(c: Call, end: Spot, further: Spot, spots: seq<Spot>, out: seq<ContentBlock>)
    requires ShowsUpTo(c, end, spots, out) && (Before(end, further) || end == further)
    requires forall p | Shown(c, p) && Before(p, further) :: Before(p, end)
    ensures ShowsUpTo(c, further, spots, out)
  {
  }

  lemma ShowsOneMore(c: Call, end: Spot, further: Spot, spots: seq<Spot>, out: seq<ContentBlock>)
    requires ShowsUpTo(c, end, spots, out) && Shown(c, end) && further == Spot(end.node, end.block + 1)
    ensures ShowsUpTo(c, further, spots + [end], out + [c.chain[end.node].bucket.content[end.block]])
  {
    hide Shown;
    forall p | Shown(c, p) && Before(p, further) ensures p in spots + [end] {
      if p != end { assert Before(p, end); }
    }
  }

  lemma {:induction false} BlocksShown(c: Call, i: nat, j: nat, spots: seq<Spot>, out: seq<ContentBlock>) returns (more: seq<Spot>)
    requires c.Valid() && i < |c.chain| - 1 && j <= |c.chain[i].bucket.content| && NewlySaid(c, i)
    requires ShowsUpTo(c, Spot(i, 0), spots, out)
    ensures ShowsUpTo(c, Spot(i, j), more, out + DropResults(c.chain[i].bucket.content[..j]))
  {
    hide ShowsUpTo, Shown, NewlySaid;
    var blocks := c.chain[i].bucket.content;
    if j == 0 {
      more := spots;
      assert out + DropResults(blocks[..0]) == out;
    } else {
      more := BlocksShown(c, i, j - 1, spots, out);
      assert blocks[..j][..j - 1] == blocks[..j - 1];
      ShownMeans(c, Spot(i, j - 1));
      if blocks[j - 1].kind == ToolResult {
        NothingBetween(c, Spot(i, j - 1), Spot(i, j));
        ShowsFurther(c, Spot(i, j - 1), Spot(i, j), more, out + DropResults(blocks[..j]));
      } else {
        var before := out + DropResults(blocks[..j - 1]);
        ShowsOneMore(c, Spot(i, j - 1), Spot(i, j), more, before);
        more := more + [Spot(i, j - 1)];
        assert before + [blocks[j - 1]] == out + DropResults(blocks[..j]);
      }
    }
  }

  lemma ShownMeans(c: Call, p: Spot)
    requires p.node < |c.chain| - 1 && p.block < |c.chain[p.node].bucket.content|
    ensures Shown(c, p) <==> NewlySaid(c, p.node) && c.chain[p.node].bucket.content[p.block].kind != ToolResult
  {
  }

  lemma NothingBetween(c: Call, p: Spot, q: Spot)
    requires q == Spot(p.node, p.block + 1) && !Shown(c, p)
    ensures forall r | Shown(c, r) && Before(r, q) :: Before(r, p)
  {
    hide Shown;
    forall r | Shown(c, r) && Before(r, q) ensures Before(r, p) {
      assert r != p;
    }
  }

  lemma {:induction false} InputBelowMeans(c: Call, n: nat) returns (spots: seq<Spot>)
    requires c.Valid() && n < |c.chain|
    ensures ShowsUpTo(c, Spot(n, 0), spots, InputBelow(c, n))
  {
    hide NewlySaid, FreshUser, DropResults;
    if n == 0 {
      spots := [];
    } else {
      spots := InputBelowMeans(c, n - 1);
      var blocks := c.chain[n - 1].bucket.content;
      NewlySaidMeans(c, n - 1);
      if FreshUser(c, n - 1) {
        spots := BlocksShown(c, n - 1, |blocks|, spots, InputBelow(c, n - 1));
        assert blocks[..|blocks|] == blocks;
        ShowsFurther(c, Spot(n - 1, |blocks|), Spot(n, 0), spots, InputBelow(c, n));
      } else {
        ShowsFurther(c, Spot(n - 1, 0), Spot(n, 0), spots, InputBelow(c, n));
      }
    }
  }

  /** The input a call shows is the fresh user input of its request, block by block in order,
      tool results left out. */
  lemma InputMeans(c: Call)
    requires c.Valid() && c.chain != []
    ensures InputShown(c, FreshInput(c))
  {
    hide Shown, InputBelow;
    var n := |c.chain| - 1;
    var spots := InputBelowMeans(c, n);
    ShowsFurther(c, Spot(n, 0), Spot(n + 1, 0), spots, FreshInput(c)) by {
      forall p | Shown(c, p) ensures Before(p, Spot(n, 0)) { assert p.node < n; }
    }
  }

  // ---------------------------------------------------------------- the prompted traces

  /** A trace as its opening call and prompt show it. */
  datatype Opening = Opening(traceId: TraceId, session: Session, prompt: Hash, startedAt: int)

  /** The traces that have a prompt, in order. */
  ghost function Prompted(turns: seq<Turn>): seq<Opening> {
    if turns == [] then []
    else
      var t := turns[|turns| - 1];
      Prompted(turns[..|turns| - 1])
      + (if t.prompt.Some? then [Opening(t.traceId, t.session, t.prompt.value, t.startedAt)] else [])
  }

  /** What one captured call is to open: a main call of the spine with a genuine prompt, one
      trace on the last of them. */
  ghost function Opens(c: Call): seq<Opening> {
    if c.chain != [] && c.kind == Main && c.thread == "" && exists i :: LastGenuine(c, i) then
      var i :| LastGenuine(c, i);
      [Opening(Trace(Identity(c)), c.session, c.chain[i].hash, c.at)]
    else []
  }

  ghost function Openings(calls: seq<Call>): seq<Opening> {
    if calls == [] then [] else Openings(calls[..|calls| - 1]) + Opens(calls[|calls| - 1])
  }

  lemma {:induction false} PromptedSame(x: seq<Turn>, y: seq<Turn>)
    requires SameTraces(x, y)
    ensures Prompted(x) == Prompted(y)
  {
    if x != [] {
      assert SameHead(x[|x| - 1], y[|y| - 1]);
      PromptedSame(x[..|x| - 1], y[..|y| - 1]);
    }
  }

  lemma PromptedOpened(x: seq<Turn>, y: seq<Turn>, head: Option<Turn>)
    requires Opened(x, y, head)
    ensures Prompted(y) == Prompted(x)
                           + (if head.Some? && head.value.prompt.Some?
                              then [Opening(head.value.traceId, head.value.session, head.value.prompt.value, head.value.startedAt)]
                              else [])
  {
    if head.Some? {
      PromptedSame(x, y[..|x|]);
      assert SameHead(head.value, y[|x|]);
    } else {
      PromptedSame(x, y);
    }
  }

  lemma MovedPrompts(a: Em, b: Em, head: Option<Turn>, sessions: set<Session>, tools: set<Key>, agents: set<Key>)
    requires Moves(a, b, head, sessions, tools, agents) && (head.None? || head.value.prompt.None?)
    ensures Prompted(b.turns) == Prompted(a.turns)
  {
    PromptedOpened(a.turns, b.turns, head);
  }

  lemma OpensMeans(c: Call)
    requires c.Valid() && c.chain != [] && c.kind == Main && c.thread == ""
    ensures Opens(c) == if Prompt(c).Some? then [Opening(Trace(Identity(c)), c.session, Prompt(c).value, c.at)] else []
  {
    hide Prompt, Genuine;
    if Prompt(c).Some? {
      PromptMeans(c, Prompt(c).value);
      forall i | LastGenuine(c, i) ensures Prompt(c) == Some(c.chain[i].hash) {
        PromptMeans(c, c.chain[i].hash);
      }
    } else {
      NoPromptMeans(c);
    }
  }

  lemma MainPrompts(em: Em, c: Call)
    requires Valid(em) && c.Valid() && c.chain != [] && c.kind == Main && c.thread == ""
    ensures Prompted(MainCall(em, c).turns) == Prompted(em.turns) + Opens(c)
  {
    hide Valid, MainCall, Prompt, Emitted, Opens;
    MainMoves(em, c);
    OpensMeans(c);
    PromptedOpened(em.turns, MainCall(em, c).turns, MainOpens(em, c));
  }

  lemma QuietPrompts(em: Em, c: Call)
    requires Valid(em) && c.Valid() && c.chain != []
    ensures Prompted(CompactionCall(em, c).turns) == Prompted(em.turns)
    ensures Prompted(ThreadCall(em, c).turns) == Prompted(em.turns)
    ensures Prompted(ShadowCall(em, c).turns) == Prompted(em.turns)
  {
    hide Valid, CompactionCall, ThreadCall, ShadowCall, Emitted, Rootless, Unhosted;
    CompactionMoves(em, c);
    MovedPrompts(em, CompactionCall(em, c), EnsureOpens(em, c), {c.session}, {}, {});
    ThreadMoves(em, c);
    MovedPrompts(em, ThreadCall(em, c), ThreadOpens(em, c), Asked(c, Rootless(em, c)), Emitted(c), {ThreadKey(c)});
    ShadowMoves(em, c);
    MovedPrompts(em, ShadowCall(em, c), ShadowOpens(em, c), Asked(c, Unhosted(em, c)), {}, {});
  }

  lemma SpineStepPrompts(em: Em, c: Call)
    requires Valid(em) && c.Valid()
    ensures Prompted(SpineStep(em, c).turns) == Prompted(em.turns) + Opens(c)
  {
    hide Valid, MainCall, CompactionCall, ThreadCall, ShadowCall, Opens, Prompted;
    if c.chain != [] && c.kind == Main && c.thread == "" {
      MainPrompts(em, c);
    } else {
      NoOpening(c);
      if c.chain != [] { QuietPrompts(em, c); }
    }
  }

  lemma {:induction false} SpinePrompts(calls: seq<Call>, n: nat)
    requires n <= |calls| && WellFormed(calls)
    ensures Prompted(Spine(calls, n).turns) == Openings(calls[..n])
  {
    hide Valid, SpineStep, Opens, Spine;
    if n == 0 {
      NothingWalked(calls);
    } else {
      SpinePrompts(calls, n - 1);
      SpineUnfolds(calls, n - 1);
      SpineStepPrompts(Spine(calls, n - 1), calls[n - 1]);
      assert calls[..n][..n - 1] == calls[..n - 1];
    }
  }

  lemma NothingWalked(calls: seq<Call>)
    requires WellFormed(calls)
    ensures Spine(calls, 0) == EMPTY
  {
  }

  lemma NoOpening(c: Call)
    requires c.chain == [] || c.kind != Main || c.thread != ""
    ensures Opens(c) == []
  {
  }

  lemma {:induction false} DegradePrompts(em: Em, pending: seq<Call>, i: nat)
    requires Valid(em) && Emittable(pending) && i <= |pending|
    ensures Prompted(Degrade(em, pending, i).turns) == Prompted(em.turns)
    decreases |pending| - i
  {
    hide Valid, Grows, ThreadCall;
    if i < |pending| {
      QuietPrompts(em, pending[i]);
      DegradePrompts(ThreadCall(em, pending[i]), pending, i + 1);
    }
  }

  lemma {:induction false} ShadowsPrompts(em: Em, calls: seq<Call>, i: nat)
    requires Valid(em) && Emittable(calls) && i <= |calls|
    ensures Prompted(Shadows(em, calls, i).turns) == Prompted(em.turns)
    decreases |calls| - i
  {
    hide Valid, Grows, ShadowCall;
    if i < |calls| {
      QuietPrompts(em, calls[i]);
      ShadowsPrompts(ShadowCall(em, calls[i]), calls, i + 1);
    }
  }

  /** The prompted traces of the walk are exactly those the calls are to open, one for each
      main call of the spine with a genuine prompt, in capture order. */
  lemma EveryPromptOpensItsTrace(calls: seq<Call>)
    requires WellFormed(calls)
    ensures Prompted(Walk(calls).turns) == Openings(calls)
  {
    hide Valid, Grows, Spine, Fixpoint, Degrade, Shadows, Openings, Prompted, SpanModel.ThreadPhase;
    var spine := Spine(calls, |calls|);
    var threads := Only(calls, IsThread);
    SpinePrompts(calls, |calls|);
    assert calls[..|calls|] == calls;
    ThreadFixpoint.EveryThreadCallOnce(spine, threads);
    DegradePrompts(spine, ThreadFixpoint.Order(spine, threads) + Fixpoint(spine, threads).1, 0);
    ShadowsPrompts(SpanModel.ThreadPhase(spine, threads), Only(calls, IsShadow), 0);
  }

  // ---------------------------------------------------------------- the traces without one

  /** Every trace's session is current somewhere, and a trace without a prompt is its
      session's first. */
  ghost predicate Started(em: Em) {
    && (forall t | 0 <= t < |em.turns| :: em.turns[t].session in em.cur)
    && forall t, u | 0 <= u < t < |em.turns| && em.turns[t].prompt.None? :: em.turns[u].session != em.turns[t].session
  }

  lemma MovedStarts(a: Em, b: Em, head: Option<Turn>, sessions: set<Session>, tools: set<Key>, agents: set<Key>)
    requires Started(a) && Moves(a, b, head, sessions, tools, agents)
    requires head.Some? ==> head.value.session in sessions && (head.value.prompt.None? ==> head.value.session !in a.cur)
    ensures Started(b)
  {
    forall t | 0 <= t < |a.turns| ensures SameHead(a.turns[t], b.turns[t]) {
      if head.Some? { assert SameHead(a.turns[t], b.turns[..|a.turns|][t]); }
    }
    forall t | 0 <= t < |b.turns| ensures b.turns[t].session in b.cur.Keys {
      if t < |a.turns| { assert a.turns[t].session in a.cur.Keys; }
    }
    forall t, u | 0 <= u < t < |b.turns| && b.turns[t].prompt.None? ensures b.turns[u].session != b.turns[t].session {
      assert u < |a.turns| && a.turns[u].session in a.cur;
    }
  }

  lemma StepsStart(em: Em, c: Call)
    requires Valid(em) && c.Valid() && c.chain != [] && Started(em)
    ensures Started(MainCall(em, c)) && Started(CompactionCall(em, c))
    ensures Started(ThreadCall(em, c)) && Started(ShadowCall(em, c))
  {
    hide Valid, Started, MainCall, CompactionCall, ThreadCall, ShadowCall, Emitted, Rootless, Unhosted, Moves, Prompt;
    MainMoves(em, c);
    MovedStarts(em, MainCall(em, c), MainOpens(em, c), {c.session}, Emitted(c), {});
    CompactionMoves(em, c);
    MovedStarts(em, CompactionCall(em, c), EnsureOpens(em, c), {c.session}, {}, {});
    ThreadMoves(em, c);
    MovedStarts(em, ThreadCall(em, c), ThreadOpens(em, c), Asked(c, Rootless(em, c)), Emitted(c), {ThreadKey(c)});
    ShadowMoves(em, c);
    MovedStarts(em, ShadowCall(em, c), ShadowOpens(em, c), Asked(c, Unhosted(em, c)), {}, {});
  }

  lemma SpineStepStarts(em: Em, c: Call)
    requires Valid(em) && c.Valid() && Started(em)
    ensures Started(SpineStep(em, c))
  {
    hide Valid, Started, MainCall, CompactionCall, ThreadCall, ShadowCall, IsSpine;
    if c.chain != [] { StepsStart(em, c); }
  }

  lemma {:induction false} SpineStarts(calls: seq<Call>, n: nat)
    requires n <= |calls| && WellFormed(calls)
    ensures Started(Spine(calls, n))
  {
    hide Valid, Spine, Started, SpineStep;
    if n == 0 {
      NothingWalked(calls);
      EmptyStarts();
    } else {
      SpineStarts(calls, n - 1);
      SpineUnfolds(calls, n - 1);
      SpineStepStarts(Spine(calls, n - 1), calls[n - 1]);
    }
  }

  lemma EmptyStarts()
    ensures Started(EMPTY)
  {
  }

  lemma {:induction false} DegradeStarts(em: Em, pending: seq<Call>, i: nat)
    requires Valid(em) && Emittable(pending) && i <= |pending| && Started(em)
    ensures Started(Degrade(em, pending, i))
    decreases |pending| - i
  {
    hide Valid, Grows, ThreadCall, Started;
    if i < |pending| {
      StepsStart(em, pending[i]);
      DegradeStarts(ThreadCall(em, pending[i]), pending, i + 1);
    }
  }

  lemma {:induction false} ShadowsStart(em: Em, calls: seq<Call>, i: nat)
    requires Valid(em) && Emittable(calls) && i <= |calls| && Started(em)
    ensures Started(Shadows(em, calls, i))
    decreases |calls| - i
  {
    hide Valid, Grows, ShadowCall, Started;
    if i < |calls| {
      StepsStart(em, calls[i]);
      ShadowsStart(ShadowCall(em, calls[i]), calls, i + 1);
    }
  }

  /** A trace without a prompt stands only at the start of its session: every later trace of
      the session was opened by a human prompt. */
  lemma OnlyPromptsOpenLaterTraces(calls: seq<Call>, t: nat, u: nat)
    requires WellFormed(calls) && u < t < |Walk(calls).turns|
    requires Walk(calls).turns[u].session == Walk(calls).turns[t].session
    ensures Walk(calls).turns[t].prompt.Some?
  {
    hide Valid, Grows, Spine, Fixpoint, Degrade, Shadows, SpanModel.ThreadPhase;
    var spine := Spine(calls, |calls|);
    var threads := Only(calls, IsThread);
    SpineStarts(calls, |calls|);
    ThreadFixpoint.EveryThreadCallOnce(spine, threads);
    DegradeStarts(spine, ThreadFixpoint.Order(spine, threads) + Fixpoint(spine, threads).1, 0);
    ShadowsStart(SpanModel.ThreadPhase(spine, threads), Only(calls, IsShadow), 0);
  }
}
