/** Capture order and the agent-path join: order decides which call is first to carry a node,
    and through that which spawn reports are read; when the copies of a node report alike, the
    order decides nothing. */
module SpawnOrder {
  import opened Llm
  import opened DeriveModel
  import opened Chain
  import opened DeriverModel
  import opened Dedup
  import opened AttachClaims
  import opened ReconcileModel
  import opened CodexSpawns

  predicate WireTurn(t: ChainTurn) {
    t.wire && t.session.harness == "codex"
  }

  /** What a captured node reports in the call that brings it. */
  ghost function NodeReports(name: TaskName, t: ChainTurn, n: ChainNode): Reported {
    if WireTurn(t) then BlockReports(name, t.session, n.bucket.content) else {}
  }

  /** The reports of all captured turns: no order and no dedup in it. */
  ghost function TurnReports(name: TaskName, turns: seq<ChainTurn>): Reported {
    set t, n, r | t in turns && n in t.chain && r in NodeReports(name, t, n) :: r
  }

  /** Copies of a node report alike, whichever call brings them. */
  ghost predicate Agree(name: TaskName, turns: seq<ChainTurn>) {
    forall t, u, m, n | t in turns && u in turns && m in t.chain && n in u.chain && m.hash == n.hash ::
      NodeReports(name, t, m) == NodeReports(name, u, n)
  }

  // ---------------------------------------------------------------- one more turn

  /** Every hash of the set was brought by some captured node. */
  ghost predicate Brings(turns: seq<ChainTurn>, h: Hash) {
    exists t, n :: t in turns && n in t.chain && n.hash == h
  }

  lemma {:induction false} HeldWasBrought(render: Renderer, turns: seq<ChainTurn>, h: Hash)
    requires h in Derive(render, turns).byHash
    ensures Brings(turns, h)
  {
    hide AddTurn;
    if turns != [] {
      var rest, t := turns[..|turns| - 1], turns[|turns| - 1];
      assert turns == rest + [t];
      if h in Derive(render, rest).byHash {
        HeldWasBrought(render, rest, h);
        var u, n :| u in rest && n in u.chain && n.hash == h;
        assert u in turns;
      } else {
        NewlyHeld(render, Derive(render, rest), t, h);
        var i :| 0 <= i < |t.chain| && t.chain[i].hash == h;
        assert t.chain[i] in t.chain && t in turns;
      }
    }
  }

  lemma NewlyHeld(render: Renderer, d: Derived, t: ChainTurn, h: Hash)
    requires h !in d.byHash && h in AddTurn(render, d, t).byHash
    ensures exists i :: 0 <= i < |t.chain| && t.chain[i].hash == h
  {
    if t.chain == [] {
      assert false;
    } else {
      hide AddTurn;
      TurnByHash(render, d, t);
    }
  }

  /** A position marked new is kept as this call brought it. */
  lemma {:induction false} NewIsKept(render: Renderer, d: Derived, t: ChainTurn, n: nat, i: nat)
    requires i < n <= |t.chain| && t.chain[i].hash !in d.byHash && forall j | 0 <= j < i :: t.chain[j].hash != t.chain[i].hash
    ensures var r := AddNodes(render, d, t, n); t.chain[i].hash in r.byHash && r.byHash[t.chain[i].hash] == Keep(t, t.chain[i])
  {
    var h, before := t.chain[i].hash, AddNodes(render, d, t, n - 1);
    assert AddNodes(render, d, t, n) == AddNode(render, before, t, t.chain[n - 1]);
    if i < n - 1 {
      NewIsKept(render, d, t, n - 1, i);
      OneMore(render, before, t, t.chain[n - 1]);
    } else {
      NodesKept(render, d, t, i);
      hide AddTools, AddNodes;
      assert h !in before.byHash;
    }
  }

  lemma NewContent(render: Renderer, d: Derived, t: ChainTurn, i: nat)
    requires i < |t.chain| && t.chain[i].hash !in d.byHash && forall j | 0 <= j < i :: t.chain[j].hash != t.chain[i].hash
    ensures Content(AddTurn(render, d, t), t.chain[i].hash) == t.chain[i].bucket.content
  {
    NewIsKept(render, Booked(d, t), t, |t.chain|, i);
  }

  lemma OldContent(render: Renderer, d: Derived, t: ChainTurn, h: Hash)
    requires h in d.byHash
    ensures Content(AddTurn(render, d, t), h) == Content(d, h)
  {
    if t.chain != [] {
      TurnByHash(render, d, t);
      hide AddTurn;
    }
  }

  lemma ConsistentAligned(d: Derived)
    requires Consistent(d)
    ensures Aligned(d.sources)
  {
    forall s | s in d.sources ensures |s.isNew| == |s.chain| { assert Resolved(d, s); }
  }

  /** The reports the new call adds: those of its positions marked new. */
  ghost function FirstReports(name: TaskName, d: Derived, t: ChainTurn): Reported {
    set i, r | 0 <= i < |t.chain| && FirstHere(d, t, i) && r in NodeReports(name, t, t.chain[i]) :: r
  }

  ghost predicate FirstHere(d: Derived, t: ChainTurn, i: nat)
    requires i < |t.chain|
  {
    t.chain[i].hash !in d.byHash && forall j | 0 <= j < i :: t.chain[j].hash != t.chain[i].hash
  }

  lemma SourceFacts(render: Renderer, d: Derived, t: ChainTurn)
    requires t.chain != []
    ensures SourceOf(render, d, t).session == t.session && WireCodex(SourceOf(render, d, t)) == WireTurn(t)
    ensures AddTurn(render, d, t).sources == d.sources + [SourceOf(render, d, t)]
  {
    hide AddNodes, NewFlags, Hashes;
  }

  lemma NewCallReports(render: Renderer, name: TaskName, d: Derived, t: ChainTurn)
    requires Consistent(d) && t.chain != []
    ensures var e, s := AddTurn(render, d, t), SourceOf(render, d, t);
            |s.isNew| == |s.chain| && (if WireCodex(s) then CallReports(e, name, s) else {}) == FirstReports(name, d, t)
  {
    hide AddTurn, BlockReports, Consistent;
    var e, s := AddTurn(render, d, t), SourceOf(render, d, t);
    SourceShape(render, d, t, 0);
    SourceFacts(render, d, t);
    hide SourceOf;
    forall i | 0 <= i < |t.chain|
      ensures s.chain[i] == t.chain[i].hash && (s.isNew[i] <==> FirstHere(d, t, i))
      ensures FirstHere(d, t, i) ==> Content(e, s.chain[i]) == t.chain[i].bucket.content
    {
      SourceShape(render, d, t, i);
      if FirstHere(d, t, i) { NewContent(render, d, t, i); }
    }
    hide Content, FirstHere;
    if WireTurn(t) {
      forall r ensures r in CallReports(e, name, s) <==> r in FirstReports(name, d, t) {
        if r in CallReports(e, name, s) {
          var i :| 0 <= i < |s.chain| && s.isNew[i] && r in BlockReports(name, s.session, Content(e, s.chain[i]));
          assert FirstHere(d, t, i) && r in NodeReports(name, t, t.chain[i]);
        }
        if r in FirstReports(name, d, t) {
          var i :| 0 <= i < |t.chain| && FirstHere(d, t, i) && r in NodeReports(name, t, t.chain[i]);
          assert s.isNew[i] && r in BlockReports(name, s.session, Content(e, s.chain[i]));
        }
      }
    }
  }

  lemma OldCallReports(render: Renderer, name: TaskName, d: Derived, t: ChainTurn, s: Source)
    requires Consistent(d) && s in d.sources
    ensures |s.isNew| == |s.chain| && CallReports(AddTurn(render, d, t), name, s) == CallReports(d, name, s)
  {
    assert Resolved(d, s);
    hide AddTurn, BlockReports, Consistent;
    var e := AddTurn(render, d, t);
    forall i | 0 <= i < |s.chain| ensures Content(e, s.chain[i]) == Content(d, s.chain[i]) {
      OldContent(render, d, t, s.chain[i]);
    }
  }

  lemma ReportsGrow(render: Renderer, name: TaskName, d: Derived, t: ChainTurn)
    requires Consistent(d) && t.chain != []
    ensures Aligned(d.sources) && Aligned(AddTurn(render, d, t).sources)
    ensures AllReports(AddTurn(render, d, t), name, AddTurn(render, d, t).sources)
         == AllReports(d, name, d.sources) + FirstReports(name, d, t)
  {
    hide AddTurn, SourceOf, CallReports, FirstReports, Consistent;
    var e, s := AddTurn(render, d, t), SourceOf(render, d, t);
    TurnConsistent(render, d, t);
    ConsistentAligned(d);
    ConsistentAligned(e);
    SourceFacts(render, d, t);
    NewCallReports(render, name, d, t);
    forall x | x in d.sources ensures CallReports(e, name, x) == CallReports(d, name, x) {
      OldCallReports(render, name, d, t, x);
    }
    assert e.sources == d.sources + [s];
    assert s in e.sources;
  }

  // ---------------------------------------------------------------- all turns

  lemma {:induction false} ReportsAre(render: Renderer, name: TaskName, turns: seq<ChainTurn>)
    requires Agree(name, turns)
    ensures Aligned(Derive(render, turns).sources)
    ensures AllReports(Derive(render, turns), name, Derive(render, turns).sources) == TurnReports(name, turns)
  {
    NewExactlyOnce(render, turns);
    if turns != [] {
      hide AddTurn, AllReports, Consistent, NodeReports, FirstReports, TurnReports;
      var rest, t := turns[..|turns| - 1], turns[|turns| - 1];
      assert turns == rest + [t];
      ReportsAre(render, name, rest);
      NewExactlyOnce(render, rest);
      ConsistentAligned(Derive(render, turns));
      AddsTheRest(render, name, rest, t);
      if t.chain == [] {
        SilentTurn(render, Derive(render, rest), t);
      } else {
        ReportsGrow(render, name, Derive(render, rest), t);
      }
    }
  }

  lemma SilentTurn(render: Renderer, d: Derived, t: ChainTurn)
    requires t.chain == []
    ensures AddTurn(render, d, t) == d
  {
  }

  /** What the first copies report, with what earlier turns reported, is all there is. */
  lemma AddsTheRest(render: Renderer, name: TaskName, rest: seq<ChainTurn>, t: ChainTurn)
    requires Agree(name, rest + [t])
    ensures TurnReports(name, rest + [t]) == TurnReports(name, rest) + FirstReports(name, Derive(render, rest), t)
  {
    hide Derive, NodeReports;
    var d, all := Derive(render, rest), rest + [t];
    forall r | r in TurnReports(name, all) ensures r in TurnReports(name, rest) + FirstReports(name, d, t) {
      var u, n :| u in all && n in u.chain && r in NodeReports(name, u, n);
      if u !in rest {
        var k :| 0 <= k < |t.chain| && t.chain[k] == n;
        var i := FirstPosition(t.chain, n.hash, k);
        assert t.chain[i] in t.chain && NodeReports(name, t, t.chain[i]) == NodeReports(name, t, n);
        if !FirstHere(d, t, i) {
          HeldWasBrought(render, rest, n.hash);
          var v, m :| v in rest && m in v.chain && m.hash == n.hash;
          assert v in all && NodeReports(name, v, m) == NodeReports(name, t, n);
        }
      }
    }
    forall r | r in TurnReports(name, rest) ensures r in TurnReports(name, all) {
      var u, n :| u in rest && n in u.chain && r in NodeReports(name, u, n);
      assert u in all;
    }
    forall r | r in FirstReports(name, d, t) ensures r in TurnReports(name, all) {
      var i :| 0 <= i < |t.chain| && FirstHere(d, t, i) && r in NodeReports(name, t, t.chain[i]);
      assert t in all && t.chain[i] in t.chain;
    }
  }

  /** The attach passes and the stamps of the roots leave every report in place. */
  lemma ReportsSurvive(name: TaskName, d: Derived, e: Derived)
    requires Aligned(d.sources) && OnlyAnchors(d, e)
    ensures Aligned(e.sources) && AllReports(e, name, e.sources) == AllReports(d, name, d.sources)
  {
    hide BlockReports;
    forall k | 0 <= k < |d.sources|
      ensures e.sources[k].isNew == d.sources[k].isNew && e.sources[k].chain == d.sources[k].chain
              && WireCodex(e.sources[k]) == WireCodex(d.sources[k]) && e.sources[k].session == d.sources[k].session
    {
      assert e.sources[k] == d.sources[k].(anchor := e.sources[k].anchor);
    }
    forall h ensures Content(e, h) == Content(d, h) {
      if h in d.byHash { SameContent(d.byHash[h], e.byHash[h]); }
    }
    assert Aligned(e.sources) by {
      forall s | s in e.sources ensures |s.isNew| == |s.chain| {
        var k :| 0 <= k < |e.sources| && e.sources[k] == s;
        assert d.sources[k] in d.sources;
      }
    }
    hide OnlyAnchors, Content;
    forall k | 0 <= k < |d.sources|
      ensures d.sources[k] in d.sources && CallReports(e, name, e.sources[k]) == CallReports(d, name, d.sources[k])
    {
    }
    SameUnion(name, d, e);
  }

  lemma SameContent(a: Kept, b: Kept)
    requires b == a.(node := a.node.(forkStamp := b.node.forkStamp))
    ensures b.node.bucket == a.node.bucket
  {
  }

  lemma SameUnion(name: TaskName, d: Derived, e: Derived)
    requires Aligned(d.sources) && Aligned(e.sources) && |e.sources| == |d.sources|
    requires forall k | 0 <= k < |d.sources| ::
               d.sources[k] in d.sources && WireCodex(e.sources[k]) == WireCodex(d.sources[k])
               && CallReports(e, name, e.sources[k]) == CallReports(d, name, d.sources[k])
    ensures AllReports(e, name, e.sources) == AllReports(d, name, d.sources)
  {
    hide CallReports, WireCodex, AllReports;
    forall k | 0 <= k < |e.sources| ensures e.sources[k] in e.sources {
    }
    UnionWithin(name, d, e);
    UnionWithin(name, e, d);
  }

  lemma UnionWithin(name: TaskName, d: Derived, e: Derived)
    requires Aligned(d.sources) && Aligned(e.sources) && |e.sources| == |d.sources|
    requires forall k | 0 <= k < |d.sources| ::
               d.sources[k] in d.sources && e.sources[k] in e.sources && WireCodex(e.sources[k]) == WireCodex(d.sources[k])
               && CallReports(e, name, e.sources[k]) == CallReports(d, name, d.sources[k])
    ensures AllReports(d, name, d.sources) <= AllReports(e, name, e.sources)
  {
    hide CallReports, WireCodex, AllReports;
    forall r | r in AllReports(d, name, d.sources) ensures r in AllReports(e, name, e.sources) {
      var k := ReporterOf(name, d, r);
      ReportedBy(name, e, k, r);
    }
  }

  lemma ReporterOf(name: TaskName, d: Derived, r: (Key, string)) returns (k: nat)
    requires Aligned(d.sources) && r in AllReports(d, name, d.sources)
    ensures k < |d.sources| && d.sources[k] in d.sources && WireCodex(d.sources[k]) && r in CallReports(d, name, d.sources[k])
  {
    hide CallReports, WireCodex;
    var s :| s in d.sources && WireCodex(s) && r in CallReports(d, name, s);
    k :| 0 <= k < |d.sources| && d.sources[k] == s;
  }

  lemma ReportedBy(name: TaskName, d: Derived, k: nat, r: (Key, string))
    requires Aligned(d.sources) && k < |d.sources| && d.sources[k] in d.sources
    requires WireCodex(d.sources[k]) && r in CallReports(d, name, d.sources[k])
    ensures r in AllReports(d, name, d.sources)
  {
    hide CallReports, WireCodex;
  }

  /** Two orders, or two selections with repeats, of the same captured turns give every
      thread the same anchor, through the attach passes and the stamping of roots. */
  lemma AnchorIgnoresCaptureOrder(render: Renderer, name: TaskName, xs: seq<ChainTurn>, ys: seq<ChainTurn>, d: Derived, e: Derived,
                                  files: seq<TranscriptFile>, threads: map<Key, ThreadMeta>, thread: Key)
    requires (forall t :: t in xs <==> t in ys) && Agree(name, xs)
    requires OnlyAnchors(Derive(render, xs), d) && OnlyAnchors(Derive(render, ys), e)
    ensures Aligned(d.sources) && Aligned(e.sources)
    ensures SpawnAnchor(files, JoinAll(d, name, d.sources), threads, thread)
         == SpawnAnchor(files, JoinAll(e, name, e.sources), threads, thread)
  {
    hide Derive, OnlyAnchors, AllReports, NodeReports, SpawnAnchor, JoinAll;
    assert Agree(name, ys);
    assert TurnReports(name, xs) == TurnReports(name, ys);
    ReportsAre(render, name, xs);
    ReportsAre(render, name, ys);
    ReportsSurvive(name, Derive(render, xs), d);
    ReportsSurvive(name, Derive(render, ys), e);
    AnchorFromReports(d, e, name, files, threads, thread);
  }

  // ---------------------------------------------------------------- when copies disagree

  lemma OnlyFirstReports(render: Renderer, name: TaskName, t: ChainTurn, u: ChainTurn, n: ChainNode)
    requires t.chain == [n] && u.chain == [n]
    ensures var d := Derive(render, [t, u]);
            Aligned(d.sources) && AllReports(d, name, d.sources) == NodeReports(name, t, n)
  {
    assert [t, u][..1] == [t] && [t][..0] == [];
    var d0 := Derive(render, [t]);
    assert Consistent(NOTHING);
    ReportsGrow(render, name, NOTHING, t);
    NewExactlyOnce(render, [t]);
    ReportsGrow(render, name, d0, u);
    assert n.hash in d0.byHash by {
      TurnByHash(render, NOTHING, t);
      assert t.chain[0].hash == n.hash;
    }
    hide NodeReports, AddTurn, Consistent;
    assert FirstReports(name, d0, u) == {} && AllReports(NOTHING, name, NOTHING.sources) == {};
    assert FirstReports(name, NOTHING, t) == NodeReports(name, t, n) by { assert FirstHere(NOTHING, t, 0); }
  }

  /** Without agreement order can decide: when two sessions carry the node that reports a
      spawn, only the first to be captured gets its thread anchored. */
  lemma FirstCaptureDecides(render: Renderer, name: TaskName, t: ChainTurn, u: ChainTurn, n: ChainNode, b: ContentBlock,
                            thread: Key)
    requires t.chain == [n] && u.chain == [n] && n.bucket.content == [b] && Reports(name, b)
    requires WireTurn(t) && WireTurn(u) && t.session != u.session && thread.session == t.session
    ensures var d, e := Derive(render, [t, u]), Derive(render, [u, t]);
            var threads := map[thread := ThreadMeta(name(b.toolOutput), "")];
            && Aligned(d.sources) && SpawnAnchor([], JoinAll(d, name, d.sources), threads, thread) == b.toolResultId
            && Aligned(e.sources) && SpawnAnchor([], JoinAll(e, name, e.sources), threads, thread) == ""
  {
    hide Derive, JoinAll, AllReports, Reports;
    var d, e := Derive(render, [t, u]), Derive(render, [u, t]);
    var path := name(b.toolOutput);
    OnlyFirstReports(render, name, t, u, n);
    OnlyFirstReports(render, name, u, t, n);
    var k := Key(t.session, path);
    assert NodeReports(name, t, n) == {(k, b.toolResultId)};
    assert NodeReports(name, u, n) == {(Key(u.session, path), b.toolResultId)};
    PathJoinsIffSingleton(d, name, d.sources, k);
    PathJoinsIffSingleton(e, name, e.sources, k);
    assert OnlyId(AllReports(d, name, d.sources), k, b.toolResultId);
    assert path != "" by { ReportHasPath(name, b); }
  }

  lemma ReportHasPath(name: TaskName, b: ContentBlock)
    requires Reports(name, b)
    ensures name(b.toolOutput) != ""
  {
  }
}
