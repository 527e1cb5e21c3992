/** Feeding a captured main turn a second time, wherever in the capture the copy lands: no
    node, no input and no trace comes of it. */
module Refeed {
  import opened Llm
  import opened DeriveModel
  import Chain
  import opened DeriverModel
  import opened Dedup
  import opened DerivedCalls
  import opened SpanModel
  import opened WalkShape
  import SpanTotals

  // ---------------------------------------------------------------- in the deriver

  ghost predicate KnownTurn(d: Derived, t: ChainTurn) {
    t.chain != [] && forall n | n in t.chain :: n.hash in d.byHash
  }

  lemma {:induction false} KnownNodes(render: Renderer, d: Derived, t: ChainTurn, n: nat)
    requires KnownTurn(d, t) && n <= |t.chain|
    ensures var r := AddNodes(render, d, t, n); r.byHash == d.byHash && r.nodes == d.nodes && r.nodeKinds == d.nodeKinds
  {
    if n > 0 {
      KnownNodes(render, d, t, n - 1);
      assert t.chain[n - 1] in t.chain;
    }
  }

  /** Re-feeding adds one call and no node: every flag is false and every counter of nodes
      stands still. */
  lemma RefeedAddsNoNode(render: Renderer, d: Derived, t: ChainTurn)
    requires KnownTurn(d, t)
    ensures var r := AddTurn(render, d, t);
            && r.byHash == d.byHash && r.nodes == d.nodes && r.nodeKinds == d.nodeKinds
            && |r.sources| == |d.sources| + 1
            && forall i | 0 <= i < |r.sources[|d.sources|].isNew| :: !r.sources[|d.sources|].isNew[i]
  {
    var r := AddTurn(render, d, t);
    KnownNodes(render, Booked(d, t), t, |t.chain|);
    forall i | 0 <= i < |t.chain| ensures !r.sources[|d.sources|].isNew[i] {
      SourceShape(render, d, t, i);
      assert t.chain[i] in t.chain;
    }
  }

  /** The source a captured turn left behind. */
  ghost predicate Recorded(d: Derived, k: nat, t: ChainTurn)
    requires t.chain != []
  {
    && k < |d.sources| && d.sources[k].chain == Hashes(t.chain)
    && d.sources[k].session == t.session && d.sources[k].thread == t.thread && d.sources[k].kind == KindOf(t)
  }

  /** A captured turn stays recorded, and its positions known, whatever is captured later. */
  lemma {:induction false} CapturedIsRecorded(render: Renderer, turns: seq<ChainTurn>, t: ChainTurn) returns (k: nat)
    requires t in turns && t.chain != []
    ensures Recorded(Derive(render, turns), k, t)
    ensures forall n | n in t.chain :: n.hash in Derive(render, turns).byHash
  {
    hide AddNodes, NewFlags, Hashes, KindOf;
    var rest, last := turns[..|turns| - 1], turns[|turns| - 1];
    assert turns == rest + [last];
    var d := Derive(render, rest);
    if last.chain != [] { TurnByHash(render, d, last); }
    if t in rest {
      k := CapturedIsRecorded(render, rest, t);
    } else {
      k := |d.sources|;
      forall n | n in t.chain ensures n.hash in Derive(render, turns).byHash {
        var i :| 0 <= i < |t.chain| && t.chain[i] == n;
      }
    }
  }

  /** u repeats t: the same chain position for position, on the spine of the same session. */
  ghost predicate Repeats(t: ChainTurn, u: ChainTurn) {
    && t.chain != [] && u.chain != [] && Hashes(u.chain) == Hashes(t.chain)
    && u.session == t.session && t.thread == "" && u.thread == ""
    && KindOf(t) == Main && KindOf(u) == Main
  }

  lemma RepeatIsKnown(d: Derived, t: ChainTurn, u: ChainTurn)
    requires Repeats(t, u) && forall n | n in t.chain :: n.hash in d.byHash
    ensures KnownTurn(d, u)
  {
    forall n | n in u.chain ensures n.hash in d.byHash {
      var i :| 0 <= i < |u.chain| && u.chain[i] == n;
      assert Hashes(u.chain)[i] == Hashes(t.chain)[i];
      assert t.chain[i] in t.chain;
    }
  }

  /** e is d with one more source at n. */
  ghost predicate Beside(d: Derived, e: Derived, n: nat, s: Source) {
    && e.byHash == d.byHash && e.nodes == d.nodes && e.nodeKinds == d.nodeKinds
    && n <= |d.sources| && e.sources == d.sources[..n] + [s] + d.sources[n..]
  }

  lemma {:induction false} NodesBeside(render: Renderer, d: Derived, e: Derived, t: ChainTurn, n: nat)
    requires n <= |t.chain| && e.byHash == d.byHash && e.nodes == d.nodes && e.nodeKinds == d.nodeKinds
    ensures var x, y := AddNodes(render, d, t, n), AddNodes(render, e, t, n);
            y.byHash == x.byHash && y.nodes == x.nodes && y.nodeKinds == x.nodeKinds
    ensures NewFlags(render, d, t, n) == NewFlags(render, e, t, n)
  {
    if n > 0 {
      NodesBeside(render, d, e, t, n - 1);
      hide AddTools, AddNodes;
      NodeBeside(render, AddNodes(render, d, t, n - 1), AddNodes(render, e, t, n - 1), t, t.chain[n - 1]);
      UnfoldNodes(render, d, t, n);
      UnfoldNodes(render, e, t, n);
    }
  }

  lemma UnfoldNodes(render: Renderer, d: Derived, t: ChainTurn, n: nat)
    requires 0 < n <= |t.chain|
    ensures AddNodes(render, d, t, n) == AddNode(render, AddNodes(render, d, t, n - 1), t, t.chain[n - 1])
  {
  }

  lemma NodeBeside(render: Renderer, d: Derived, e: Derived, t: ChainTurn, n: Chain.ChainNode)
    requires e.byHash == d.byHash && e.nodes == d.nodes && e.nodeKinds == d.nodeKinds
    ensures var x, y := AddNode(render, d, t, n), AddNode(render, e, t, n);
            y.byHash == x.byHash && y.nodes == x.nodes && y.nodeKinds == x.nodeKinds
  {
    hide AddTools;
  }

  lemma TurnBeside(render: Renderer, d: Derived, e: Derived, n: nat, s: Source, t: ChainTurn)
    requires Beside(d, e, n, s)
    ensures Beside(AddTurn(render, d, t), AddTurn(render, e, t), n, s)
  {
    if t.chain != [] {
      hide AddNodes, NewFlags, Hashes, KindOf;
      NodesBeside(render, Booked(d, t), Booked(e, t), t, |t.chain|);
      var x, y := AddTurn(render, d, t), AddTurn(render, e, t);
      LastSource(d.sources, e.sources, x.sources, y.sources, n, s, x.sources[|d.sources|]);
    }
  }

  lemma LastSource(d: seq<Source>, e: seq<Source>, x: seq<Source>, y: seq<Source>, n: nat, s: Source, last: Source)
    requires n <= |d| && e == d[..n] + [s] + d[n..] && x == d + [last] && y == e + [last]
    ensures y == x[..n] + [s] + x[n..]
  {
  }

  lemma {:induction false} DeriveBeside(render: Renderer, x: seq<ChainTurn>, t: ChainTurn, u: ChainTurn, y: seq<ChainTurn>)
    requires t in x && Repeats(t, u)
    ensures var d0 := Derive(render, x);
            var s := AddTurn(render, d0, u).sources;
            |s| == |d0.sources| + 1
            && Beside(Derive(render, x + y), Derive(render, x + [u] + y), |d0.sources|, s[|d0.sources|])
    ensures |Derive(render, x + y).sources| >= |Derive(render, x).sources|
    ensures Derive(render, x + y).sources[..|Derive(render, x).sources|] == Derive(render, x).sources
  {
    hide AddTurn, Repeats, Hashes;
    var d0 := Derive(render, x);
    if y == [] {
      assert x + y == x && x + [u] + y == x + [u] && (x + [u])[..|x|] == x;
      var k := CapturedIsRecorded(render, x, t) by { RepeatsHas(t, u); }
      RepeatIsKnown(d0, t, u);
      RefeedAddsNoNode(render, d0, u);
      SourceShape(render, d0, u, 0);
    } else {
      var n := |y| - 1;
      DeriveBeside(render, x, t, u, y[..n]);
      assert (x + y)[..|x| + n] == x + y[..n] && (x + [u] + y)[..|x| + 1 + n] == x + [u] + y[..n];
      var d, e := Derive(render, x + y[..n]), Derive(render, x + [u] + y[..n]);
      TurnBeside(render, d, e, |d0.sources|, AddTurn(render, d0, u).sources[|d0.sources|], y[n]);
      SourcesGrow(render, d, y[n]);
    }
  }

  lemma RepeatsHas(t: ChainTurn, u: ChainTurn)
    requires Repeats(t, u)
    ensures t.chain != [] && u.chain != []
  {
  }

  lemma SourcesGrow(render: Renderer, d: Derived, t: ChainTurn)
    ensures d.sources <= AddTurn(render, d, t).sources
  {
    hide AddNodes, NewFlags, Hashes, KindOf;
  }

  // ---------------------------------------------------------------- in the emitter

  ghost predicate NothingNew(c: Call) {
    c.Valid() && c.chain != [] && forall i | 0 <= i < |c.isNew| :: !c.isNew[i]
  }

  /** A turn fed again reaches the emitter as a call with nothing new in it. */
  lemma RefedCallIsStale(render: Renderer, d: Derived, t: ChainTurn)
    requires Consistent(d) && KnownTurn(d, t)
    ensures var r := AddTurn(render, d, t);
            Consistent(r) && |Calls(r)| == |d.sources| + 1 && NothingNew(Calls(r)[|d.sources|])
  {
    hide Consistent, Calls, KnownTurn, AddTurn;
    TurnConsistent(render, d, t);
    RefeedAddsNoNode(render, d, t);
    CallAt(AddTurn(render, d, t), |d.sources|);
  }

  /** again repeats first: a call of the same spine with the same chain and nothing new. */
  ghost predicate Stale(first: Call, again: Call) {
    && first.chain != [] && first.kind == Main && first.thread == ""
    && NothingNew(again) && again.chain == first.chain && again.session == first.session
    && again.kind == Main && again.thread == ""
  }

  lemma {:induction false} NoFreshPrompt(c: Call, n: nat)
    requires NothingNew(c) && n <= |c.chain|
    ensures FreshPrompt(c, n) == None && InputBelow(c, n) == []
  {
    if n > 0 { NoFreshPrompt(c, n - 1); }
  }

  lemma {:induction false} SpineSessions(calls: seq<Call>, n: nat, c: Call)
    requires n <= |calls| && WellFormed(calls) && c in calls[..n]
    requires c.chain != [] && c.kind == Main && c.thread == ""
    ensures c.session in Spine(calls, n).cur
  {
    hide Valid, MainCall, CompactionCall;
    if c != calls[n - 1] {
      assert c in calls[..n - 1];
      SpineSessions(calls, n - 1, c);
    }
    if calls[n - 1] == c {
      var em := Spine(calls, n - 1);
      MainHasSession(em, c);
      assert Spine(calls, n) == MainCall(em, c);
    }
  }

  lemma MainHasSession(em: Em, c: Call)
    requires Valid(em) && c.Valid() && c.chain != []
    ensures c.session in MainCall(em, c).cur
  {
    hide Valid, EmitConversation, SpanModel.Prompt;
  }

  lemma {:induction false} SpinePrefix(a: seq<Call>, b: seq<Call>, n: nat)
    requires WellFormed(a) && WellFormed(b) && n <= |a| && n <= |b| && a[..n] == b[..n]
    ensures Spine(a, n) == Spine(b, n)
  {
    hide Valid, MainCall, CompactionCall;
    if n > 0 {
      assert a[..n][..n - 1] == a[..n - 1] && b[..n][..n - 1] == b[..n - 1] && a[..n][n - 1] == b[..n][n - 1];
      SpinePrefix(a, b, n - 1);
    }
  }

  /** A main call with nothing new, on a spine that has its session, shows no input and opens
      no trace, whatever its chain. */
  lemma RefeedOpensNoTrace(calls: seq<Call>, first: Call, again: Call)
    requires WellFormed(calls) && first in calls && first.chain != [] && first.kind == Main && first.thread == ""
    requires NothingNew(again) && again.session == first.session
    ensures FreshInput(again) == []
    ensures SameTraces(Spine(calls, |calls|).turns, MainCall(Spine(calls, |calls|), again).turns)
  {
    hide Valid, MainCall, Spine, SpanModel.Prompt, SameTraces, Emitted;
    assert calls[..|calls|] == calls;
    SpineSessions(calls, |calls|, first);
    PromptOfStale(again);
    MainMoves(Spine(calls, |calls|), again);
  }

  /** The spine step of a repeated call changes nothing a later step looks at. */
  lemma StaleStep(calls: seq<Call>, first: Call, again: Call)
    requires WellFormed(calls) && first in calls && Stale(first, again)
    ensures Alike(MainCall(Spine(calls, |calls|), again), Spine(calls, |calls|))
  {
    hide Valid, MainCall, Emitted, Spine, SpanModel.Prompt;
    var em := Spine(calls, |calls|);
    assert calls[..|calls|] == calls;
    SpineSessions(calls, |calls|, first);
    assert SpanModel.Prompt(again) == None by { PromptOfStale(again); }
    assert Emitted(again) <= em.tools.Keys by {
      assert Emitted(again) == Emitted(first) by { SameEmitted(first, again); }
      forall k | k in Emitted(first) ensures k in em.tools {
        SpanTotals.SpineTools(calls, |calls|, k);
      }
    }
    MainMoves(em, again);
    AlikeAfterNothing(em, MainCall(em, again), again.session, Emitted(again));
  }

  lemma PromptOfStale(c: Call)
    requires NothingNew(c)
    ensures SpanModel.Prompt(c) == None && FreshInput(c) == []
  {
    NoFreshPrompt(c, |c.chain| - 1);
  }

  lemma SameEmitted(a: Call, b: Call)
    requires a.chain != [] && b.chain == a.chain && b.session == a.session
    ensures Emitted(a) == Emitted(b)
  {
  }

  lemma AlikeAfterNothing(a: Em, b: Em, s: Session, tools: set<Key>)
    requires Moves(a, b, None, {s}, tools, {}) && s in a.cur && tools <= a.tools.Keys
    ensures Alike(b, a)
  {
    assert a.cur.Keys + {s} == a.cur.Keys && a.tools.Keys + tools == a.tools.Keys;
  }

  lemma SpineStepsAlike(a: seq<Call>, i: nat, b: seq<Call>, j: nat)
    requires WellFormed(a) && WellFormed(b) && i < |a| && j < |b| && a[i] == b[j] && Alike(Spine(a, i), Spine(b, j))
    ensures Alike(Spine(a, i + 1), Spine(b, j + 1))
  {
    hide Valid, Alike, Spine, SpineStep;
    SpineUnfolds(a, i);
    SpineUnfolds(b, j);
    SpineStepAlike(Spine(a, i), Spine(b, j), a[i]);
  }

  lemma SpineWithStale(a: seq<Call>, p: seq<Call>, first: Call, again: Call)
    requires WellFormed(a) && p + [again] <= a && first in p && Stale(first, again)
    ensures WellFormed(p) && Alike(Spine(a, |p| + 1), Spine(p, |p|))
  {
    hide Valid, MainCall, CompactionCall, Alike, Stale;
    forall c | c in p ensures c.Valid() { assert c in p + [again]; }
    assert a[..|p|] == p == p[..|p|] && a[|p|] == again;
    SpinePrefix(a, p, |p|);
    StaleStep(p, first, again);
    StaleHas(first, again);
  }

  lemma {:induction false} SpineInserted(p: seq<Call>, first: Call, again: Call, q: seq<Call>, j: nat)
    requires WellFormed(p + [again] + q) && WellFormed(p + q) && first in p && Stale(first, again) && j <= |q|
    ensures Alike(Spine(p + [again] + q, |p| + 1 + j), Spine(p + q, |p| + j))
  {
    hide Valid, Spine, Alike, Stale, WellFormed;
    var a, b := p + [again] + q, p + q;
    if j == 0 {
      SpineWithStale(a, p, first, again);
      assert b[..|p|] == p == p[..|p|];
      SpinePrefix(b, p, |p|);
    } else {
      SpineInserted(p, first, again, q, j - 1);
      SpineStepsAlike(a, |p| + j, b, |p| + j - 1);
    }
  }

  lemma StaleHas(first: Call, again: Call)
    requires Stale(first, again)
    ensures again.chain != [] && again.kind == Main && again.thread == ""
  {
  }

  lemma {:induction false} OnlyConcat(a: seq<Call>, b: seq<Call>, p: Call -> bool)
    ensures Only(a + b, p) == Only(a, p) + Only(b, p)
  {
    if b == [] {
      assert a + b == a;
    } else {
      assert (a + b)[..|a + b| - 1] == a + b[..|b| - 1];
      OnlyConcat(a, b[..|b| - 1], p);
    }
  }

  lemma OnlyInserted(p: seq<Call>, c: Call, q: seq<Call>, f: Call -> bool)
    requires !f(c)
    ensures Only(p + [c] + q, f) == Only(p + q, f)
  {
    OnlyConcat(p + [c], q, f);
    OnlyConcat(p, [c], f);
    OnlyConcat(p, q, f);
    assert [c][..0] == [];
    assert Only([c], f) == [];
  }

  /** A repeated main call, wherever it comes after the first, opens no trace itself and
      changes no decision of a later spine, thread or shadow call to open one. */
  lemma StaleCallOpensNothing(p: seq<Call>, first: Call, again: Call, q: seq<Call>)
    requires WellFormed(p + [again] + q) && first in p && Stale(first, again)
    ensures WellFormed(p + q) && SameTraces(Walk(p + [again] + q).turns, Walk(p + q).turns)
  {
    hide Valid, Walk, Spine, Only, SameTraces;
    forall c | c in p + q ensures c.Valid() { assert c in p + [again] + q; }
    SpineInserted(p, first, again, q, |q|);
    OnlyInserted(p, again, q, IsThread);
    OnlyInserted(p, again, q, IsShadow);
    WalksAlike(p + [again] + q, p + q);
  }

  // ---------------------------------------------------------------- from the capture to the traces

  lemma BesideCalls(d: Derived, e: Derived, n: nat, s: Source)
    requires Consistent(d) && Consistent(e) && Beside(d, e, n, s)
    ensures |Calls(d)| == |d.sources| && Resolved(e, s)
    ensures Calls(e) == Calls(d)[..n] + [CallOf(e, s)] + Calls(d)[n..]
  {
    hide Consistent, Calls;
    assert e.sources[n] == s;
    CallAt(e, n);
    if d.sources != [] { CallAt(d, 0); }
    CountCalls(d);
    forall k | 0 <= k < |e.sources| ensures Calls(e)[k] == (Calls(d)[..n] + [CallOf(e, s)] + Calls(d)[n..])[k] {
      CallAt(e, k);
      if k < n {
        CallAt(d, k);
      } else if k > n {
        CallAt(d, k - 1);
        assert e.sources[k] == d.sources[k - 1];
      }
    }
  }

  lemma RecordedStale(d: Derived, e: Derived, k: nat, t: ChainTurn, u: ChainTurn, s: Source)
    requires Consistent(d) && Repeats(t, u) && Recorded(d, k, t) && e.byHash == d.byHash && Resolved(e, s)
    requires s.chain == Hashes(u.chain) && s.session == u.session && s.thread == u.thread && s.kind == KindOf(u)
    requires forall i | 0 <= i < |s.isNew| :: !s.isNew[i]
    ensures |Calls(d)| == |d.sources| && Stale(Calls(d)[k], CallOf(e, s))
  {
    hide Consistent, Calls;
    CallAt(d, k);
    assert |s.chain| == |u.chain|;
  }

  /** The whole way: in a capture where u repeats an earlier main turn t, the deriver keeps
      the same nodes, the emitter gets one call more whose fresh input is empty, and the walk
      ends with the same traces, opened by the same calls for the same prompts. */
  lemma RefeedLeavesTraces(render: Renderer, x: seq<ChainTurn>, t: ChainTurn, u: ChainTurn, y: seq<ChainTurn>)
    requires t in x && Repeats(t, u)
    ensures var d, e := Derive(render, x + y), Derive(render, x + [u] + y);
            && Consistent(d) && Consistent(e) && WellFormed(Calls(d)) && WellFormed(Calls(e))
            && e.byHash == d.byHash && e.nodes == d.nodes && e.nodeKinds == d.nodeKinds
            && SameTraces(Walk(Calls(e)).turns, Walk(Calls(d)).turns)
            && exists n: nat, again ::
                 && n <= |Calls(d)| && Calls(e) == Calls(d)[..n] + [again] + Calls(d)[n..]
                 && NothingNew(again) && FreshInput(again) == []
  {
    hide Consistent, Calls, Derive, AddTurn, Repeats, Walk, Recorded, KindOf, Hashes, SameTraces, Beside, CallOf;
    var d0, d, e := Derive(render, x), Derive(render, x + y), Derive(render, x + [u] + y);
    NewExactlyOnce(render, x + y);
    NewExactlyOnce(render, x + [u] + y);
    DeriveBeside(render, x, t, u, y);
    var n := |d0.sources|;
    var s := AddTurn(render, d0, u).sources[n];
    RepeatsHas(t, u);
    var k := CapturedIsRecorded(render, x, t);
    assert Recorded(d, k, t) by { RecordedLater(d0, d, k, t); }
    assert Beside(d, e, n, s);
    RepeatIsKnown(d0, t, u);
    RefeedAddsNoNode(render, d0, u);
    RepeatedSource(render, d0, u);
    BesideCalls(d, e, n, s);
    BesideReads(d, e, n, s);
    RecordedStale(d, e, k, t, u, s);
    var p, q, again := Calls(d)[..n], Calls(d)[n..], CallOf(e, s);
    assert p + q == Calls(d);
    assert Calls(d)[k] in p by { RecordedBefore(d0, k, t); assert p[k] == Calls(d)[k]; }
    CallsAreValid(d);
    CallsAreValid(e);
    StaleCallOpensNothing(p, Calls(d)[k], again, q);
    PromptOfStale(again);
  }

  lemma RecordedLater(d0: Derived, d: Derived, k: nat, t: ChainTurn)
    requires t.chain != [] && Recorded(d0, k, t) && |d0.sources| <= |d.sources| && d.sources[..|d0.sources|] == d0.sources
    ensures Recorded(d, k, t)
  {
    assert d.sources[k] == d0.sources[k];
  }

  lemma RecordedBefore(d: Derived, k: nat, t: ChainTurn)
    requires t.chain != [] && Recorded(d, k, t)
    ensures k < |d.sources|
  {
  }

  lemma RepeatedSource(render: Renderer, d: Derived, u: ChainTurn)
    requires u.chain != []
    ensures |AddTurn(render, d, u).sources| == |d.sources| + 1
    ensures var s := AddTurn(render, d, u).sources[|d.sources|];
            s.chain == Hashes(u.chain) && s.session == u.session && s.thread == u.thread && s.kind == KindOf(u)
  {
    hide AddNodes, NewFlags, Hashes;
  }

  lemma BesideReads(d: Derived, e: Derived, n: nat, s: Source)
    requires Beside(d, e, n, s)
    ensures e.byHash == d.byHash && e.nodes == d.nodes && e.nodeKinds == d.nodeKinds && n <= |d.sources|
  {
  }

  lemma CallsAreValid(d: Derived)
    requires Consistent(d)
    ensures WellFormed(Calls(d))
  {
    hide Consistent, Calls;
    CountCalls(d);
    forall c | c in Calls(d) ensures c.Valid() {
      var k :| 0 <= k < |Calls(d)| && Calls(d)[k] == c;
      CallAt(d, k);
    }
  }
}
