/** The derive pass end to end: dedup, attach, reconcile, then the span walk. */
module Pipeline {
  import opened Llm
  import opened DeriveModel
  import opened Chain
  import opened DeriverModel
  import opened Dedup
  import opened DerivedCalls
  import ToolRegistry
  import opened AttachModel
  import opened AttachClaims
  import opened ReconcileModel
  import ForestWalk
  import CodexSpawns
  import SpanModel
  import SpanWalk
  import SpanSoundness
  import SpanTotals
  import SpanFinish
  import SpanForest
  import SpanInputs
  import SpawnOrder

  // ---------------------------------------------------------------- anchors are invisible to dedup

  lemma NewAtStays(d: Derived, e: Derived)
    requires OnlyAnchors(d, e)
    ensures forall k, i, h | 0 <= k < |d.sources| :: NewAt(e.sources[k], i, h) <==> NewAt(d.sources[k], i, h)
  {
    forall k, i, h | 0 <= k < |d.sources| ensures NewAt(e.sources[k], i, h) <==> NewAt(d.sources[k], i, h) {
      assert e.sources[k] == d.sources[k].(anchor := e.sources[k].anchor);
    }
  }

  lemma PassKeepsConsistency(d: Derived, e: Derived)
    requires Consistent(d) && OnlyAnchors(d, e)
    ensures Consistent(e)
  {
    hide NewAt, OnlyAnchors;
    NewAtStays(d, e);
    SourcesStay(d, e);
    forall s | s in e.sources ensures Resolved(e, s) && s.chain != [] {
      var k :| 0 <= k < |e.sources| && e.sources[k] == s;
      assert d.sources[k] in d.sources && Resolved(d, d.sources[k]);
    }
    forall h | h in e.byHash ensures Introduced(e.sources, h) && e.byHash[h].node.hash == h {
      assert Introduced(d.sources, h);
      var k, i :| 0 <= k < |d.sources| && NewAt(d.sources[k], i, h);
      assert NewAt(e.sources[k], i, h);
    }
    assert NewOnce(e.sources);
  }

  lemma SourcesStay(d: Derived, e: Derived)
    requires OnlyAnchors(d, e)
    ensures e.nodes == d.nodes && |e.sources| == |d.sources| && e.byHash.Keys == d.byHash.Keys
    ensures forall h | h in d.byHash :: e.byHash[h].node.hash == d.byHash[h].node.hash
    ensures forall k | 0 <= k < |d.sources| :: e.sources[k] == d.sources[k].(anchor := e.sources[k].anchor)
  {
    forall h | h in d.byHash ensures e.byHash[h].node.hash == d.byHash[h].node.hash {
      assert e.byHash[h] == d.byHash[h].(node := d.byHash[h].node.(forkStamp := e.byHash[h].node.forkStamp));
    }
  }

  lemma FiledStays(d: Derived, e: Derived)
    requires Filed(d) && OnlyAnchors(d, e)
    ensures Filed(e)
  {
    hide OnlyAnchors;
    SourcesStay(d, e);
  }

  lemma StampsOnly(d: Derived, e: Derived)
    requires ForestWalk.SameButStamps(d, e) && e == d.(byHash := e.byHash)
    ensures OnlyAnchors(d, e)
  {
    forall h | h in d.byHash
      ensures e.byHash[h] == d.byHash[h].(node := d.byHash[h].node.(forkStamp := e.byHash[h].node.forkStamp))
    {
      assert ForestWalk.SameNode(d.byHash[h], e.byHash[h]);
      assert d.byHash[h].node.(forkStamp := "").(forkStamp := e.byHash[h].node.forkStamp)
          == e.byHash[h].node.(forkStamp := "").(forkStamp := e.byHash[h].node.forkStamp);
    }
  }

  lemma ReconcileOnlyAnchors(d: Derived, sign: Signer, name: TaskName, files: seq<TranscriptFile>,
                             threads: map<Key, ThreadMeta>)
    requires Filed(d) && CodexSpawns.Aligned(d.sources)
    ensures OnlyAnchors(d, CodexSpawns.Reconcile(d, sign, name, files, threads))
  {
    hide Filed, JoinAll, ReconcileRoots, Roots, ForestWalk.SameButStamps;
    var authority := Authoritative(d.sources);
    var r := ReconcileRoots(d, sign, files, authority, |Roots(d)|).0;
    ForestWalk.OnlyStampsChange(d, sign, files, authority, |Roots(d)|);
    StampsOnly(d, r);
    var j := JoinAll(r, name, r.sources);
    CodexSpawns.AnchorsOnly(files, j, threads, r.sources);
  }

  // ---------------------------------------------------------------- from turns to sources

  predicate DistinctRows(turns: seq<ChainTurn>) {
    forall i, j | 0 <= i < j < |turns| ::
      turns[i].rawTurn != turns[j].rawTurn && (turns[i].requestId == "" || turns[i].requestId != turns[j].requestId)
  }

  ghost predicate FromSome(s: Source, turns: seq<ChainTurn>) {
    exists i :: 0 <= i < |turns| && turns[i].rawTurn == s.rawTurn && turns[i].requestId == s.requestId
  }

  ghost predicate RowsApart(sources: seq<Source>) {
    forall k, l | 0 <= k < l < |sources| ::
      sources[k].rawTurn != sources[l].rawTurn && (sources[k].requestId == "" || sources[k].requestId != sources[l].requestId)
  }

  lemma {:induction false} SourcesComeFromTurns(render: Renderer, turns: seq<ChainTurn>)
    requires DistinctRows(turns)
    ensures var d := Derive(render, turns); RowsApart(d.sources) && forall k | 0 <= k < |d.sources| :: FromSome(d.sources[k], turns)
  {
    hide AddNodes, NewFlags, Hashes;
    if turns != [] {
      var n := |turns| - 1;
      SourcesComeFromTurns(render, turns[..n]);
      var d, e := Derive(render, turns[..n]), Derive(render, turns);
      forall k | 0 <= k < |d.sources| ensures FromSome(d.sources[k], turns) {
        var i :| 0 <= i < n && turns[..n][i].rawTurn == d.sources[k].rawTurn && turns[..n][i].requestId == d.sources[k].requestId;
        assert turns[i] == turns[..n][i];
      }
      forall k | 0 <= k < |e.sources| ensures FromSome(e.sources[k], turns) {
        if k >= |d.sources| { assert turns[n].rawTurn == e.sources[k].rawTurn; }
      }
      if turns[n].chain != [] {
        forall k | 0 <= k < |d.sources|
          ensures d.sources[k].rawTurn != turns[n].rawTurn
                  && (d.sources[k].requestId == "" || d.sources[k].requestId != turns[n].requestId)
        {
          assert FromSome(d.sources[k], turns[..n]);
          var i :| 0 <= i < n && turns[..n][i].rawTurn == d.sources[k].rawTurn && turns[..n][i].requestId == d.sources[k].requestId;
          assert turns[..n][i] == turns[i];
        }
      }
    }
  }

  lemma DerivedIsFiled(render: Renderer, turns: seq<ChainTurn>)
    ensures Filed(Derive(render, turns))
  {
    hide Distinct, Derive, NewOnce, AllResolved, First;
    var d := Derive(render, turns);
    NewExactlyOnce(render, turns);
    RetainsFirstOccurrences(render, turns);
    ToolRegistry.DistinctHasNoRepeats(HashesOf(Arrivals(turns)));
  }

  // ---------------------------------------------------------------- the whole pass

  /** BuildDerivedSet, then ReconcileTranscripts. */
  ghost function DerivePass(render: Renderer, texts: Texts, turns: seq<ChainTurn>): Derived {
    AttachAll(texts, Derive(render, turns)).0
  }

  lemma PassIsConsistent(render: Renderer, texts: Texts, turns: seq<ChainTurn>)
    ensures var d := DerivePass(render, texts, turns);
            Consistent(d) && Filed(d) && CodexSpawns.Aligned(d.sources) && OnlyAnchors(Derive(render, turns), d)
  {
    hide Consistent, Filed, OnlyAnchors, AttachAll, Derive;
    var d := Derive(render, turns);
    NewExactlyOnce(render, turns);
    DerivedIsFiled(render, turns);
    AttachSettles(texts, d);
    assert OnlyAnchors(d, AttachAll(texts, d).0);
    PassKeepsConsistency(d, AttachAll(texts, d).0);
    FiledStays(d, AttachAll(texts, d).0);
    SpawnOrder.ConsistentAligned(AttachAll(texts, d).0);
  }

  lemma RowsStayApart(d: Derived, e: Derived)
    requires OnlyAnchors(d, e) && RowsApart(d.sources)
    ensures RowsApart(e.sources)
  {
    forall k | 0 <= k < |d.sources|
      ensures e.sources[k].rawTurn == d.sources[k].rawTurn && e.sources[k].requestId == d.sources[k].requestId
    {
      assert e.sources[k] == d.sources[k].(anchor := e.sources[k].anchor);
    }
  }

  /** DerivePass, then ReconcileTranscripts. */
  ghost function FinalPass(render: Renderer, texts: Texts, sign: Signer, name: TaskName, files: seq<TranscriptFile>,
                           threads: map<Key, ThreadMeta>, turns: seq<ChainTurn>): Derived
  {
    PassIsConsistent(render, texts, turns);
    CodexSpawns.Reconcile(DerivePass(render, texts, turns), sign, name, files, threads)
  }

  lemma FinalPassIsFit(render: Renderer, texts: Texts, sign: Signer, name: TaskName, files: seq<TranscriptFile>,
                       threads: map<Key, ThreadMeta>, turns: seq<ChainTurn>)
    requires DistinctRows(turns)
    ensures var e := FinalPass(render, texts, sign, name, files, threads, turns);
            Consistent(e) && |Calls(e)| == |e.sources| && DistinctIdentities(e)
  {
    hide Consistent, Filed, OnlyAnchors, DerivePass, CodexSpawns.Reconcile, Derive, Calls, RowsApart, DistinctIdentities;
    var d0, d := Derive(render, turns), DerivePass(render, texts, turns);
    PassIsConsistent(render, texts, turns);
    var e := CodexSpawns.Reconcile(d, sign, name, files, threads);
    ReconcileOnlyAnchors(d, sign, name, files, threads);
    PassKeepsConsistency(d, e);
    SourcesComeFromTurns(render, turns);
    RowsStayApart(d0, d);
    RowsStayApart(d, e);
    RowsIdentify(e);
  }

  /** For every sequence of captured calls with distinct raw rows and request ids, and every
      set of transcript files: the calls the pass hands to the emitter are separate, so the
      walk's traces are trees, its links have their ends, its tools feed once, and what is
      handed out after sorting is still a forest. */
  lemma DerivedSpansAreSound(render: Renderer, texts: Texts, sign: Signer, name: TaskName, files: seq<TranscriptFile>,
                             threads: map<Key, ThreadMeta>, turns: seq<ChainTurn>)
    requires DistinctRows(turns)
    ensures var e := FinalPass(render, texts, sign, name, files, threads, turns);
            Consistent(e) && SpanWalk.Separate(Calls(e)) && SpanModel.WellFormed(Calls(e))
            && var walk := SpanModel.Walk(Calls(e));
               && (exists used :: SpanSoundness.Sound(walk, SpanWalk.Rest(used)))
               && SpanModel.NoEmptyTurn(walk.turns)
               && SpanForest.Forest(SpanForest.TurnsOf(SpanFinish.FinishAll(walk.turns)), walk.cross)
  {
    hide Consistent, FinalPass, Calls, SpanWalk.Separate, DistinctIdentities, SpanSoundness.Sound, SpanModel.Walk, SpanForest.Forest;
    var e := FinalPass(render, texts, sign, name, files, threads, turns);
    FinalPassIsFit(render, texts, sign, name, files, threads, turns);
    DerivedCallsAreSeparate(e);
    SpanWalk.WalkSound(Calls(e));
    SpanForest.FinishedWalkIsForest(Calls(e));
  }

  /** And no node's blocks are stored as the input of two llm spans. */
  lemma DerivedInputsAreApart(render: Renderer, texts: Texts, sign: Signer, name: TaskName, files: seq<TranscriptFile>,
                              threads: map<Key, ThreadMeta>, turns: seq<ChainTurn>, t: nat, j: nat, u: nat, k: nat)
    requires DistinctRows(turns) && (t < u || (t == u && j < k))
    requires var e := FinalPass(render, texts, sign, name, files, threads, turns);
             Consistent(e) && SpanModel.WellFormed(Calls(e))
             && SpanInputs.LlmAt(SpanModel.Walk(Calls(e)).turns, t, j) && SpanInputs.LlmAt(SpanModel.Walk(Calls(e)).turns, u, k)
    ensures var e := FinalPass(render, texts, sign, name, files, threads, turns);
            var spans := SpanModel.Walk(Calls(e)).turns;
            exists xs, ys ::
              && SpanInputs.Shows(e.byHash, spans[t].spans[j].fixed.input, xs)
              && SpanInputs.Shows(e.byHash, spans[u].spans[k].fixed.input, ys)
              && SpanInputs.Disjoint(xs, ys)
  {
    hide Consistent, FinalPass, Calls, DistinctIdentities, SpanModel.Walk, SpanInputs.Shows;
    var e := FinalPass(render, texts, sign, name, files, threads, turns);
    FinalPassIsFit(render, texts, sign, name, files, threads, turns);
    var a, b := SpanInputs.InputShownOnce(e, t, j, u, k);
  }

  lemma RowsIdentify(d: Derived)
    requires Consistent(d) && RowsApart(d.sources)
    ensures |Calls(d)| == |d.sources| && DistinctIdentities(d)
  {
    hide Consistent, Calls, DistinctIdentities;
    IdentitiesDistinct(d);
  }

  // ---------------------------------------------------------------- what is reported

  lemma WalkHasAgentRoots(calls: seq<Call>)
    requires SpanWalk.Separate(calls) && SpanModel.WellFormed(calls)
    ensures SpanModel.NoEmptyTurn(SpanModel.Walk(calls).turns) && SpanFinish.AgentRoots(SpanModel.Walk(calls).turns)
  {
    hide SpanModel.Walk, SpanWalk.Separate;
    var turns := SpanModel.Walk(calls).turns;
    forall t | 0 <= t < |turns| ensures turns[t].spans != [] && turns[t].spans[0].fixed.kind == SpanModel.AgentSpan {
      SpanWalk.TracesAreTrees(calls, t);
    }
  }

  /** The finished totals of a session are the sums over its calls, and its tool count is the
      number of distinct tool_use ids its main and thread calls emitted: nothing is counted
      twice or lost to the order of the phases. */
  lemma ReportedTotalsAreTheCalls(calls: seq<Call>, s: Session)
    requires SpanWalk.Separate(calls) && SpanModel.WellFormed(calls)
    ensures exists tools: nat, ids: set<Key> ::
              && (forall k :: k in ids <==> k.session == s && SpanTotals.EmittedBySome(calls, k)) && tools == |ids|
              && SpanFinish.Reported(SpanFinish.FinishAll(SpanModel.Walk(calls).turns), s)
                 == SpanFinish.Rollup(SpanTotals.SumCalls(calls, s, SpanTotals.Prompt),
                                      SpanTotals.SumCalls(calls, s, SpanTotals.Completion),
                                      SpanTotals.SumCalls(calls, s, SpanTotals.CacheRead),
                                      SpanTotals.SumCalls(calls, s, SpanTotals.CacheCreation),
                                      SpanTotals.SumCalls(calls, s, SpanTotals.MainPrompt),
                                      SpanTotals.SumCalls(calls, s, SpanTotals.MainCompletion),
                                      tools)
  {
    hide SpanModel.Walk, SpanWalk.Separate, SpanTotals.SumCalls, SpanTotals.SessionTotal, SpanFinish.Reported, SpanFinish.FinishAll,
         SpanTotals.EmittedBySome;
    WalkHasAgentRoots(calls);
    SpanFinish.ReportedIsTotal(SpanModel.Walk(calls).turns, s);
    SpanTotals.SpendConserved(calls, s, SpanTotals.Prompt);
    SpanTotals.SpendConserved(calls, s, SpanTotals.Completion);
    SpanTotals.SpendConserved(calls, s, SpanTotals.CacheRead);
    SpanTotals.SpendConserved(calls, s, SpanTotals.CacheCreation);
    SpanTotals.SpendConserved(calls, s, SpanTotals.MainPrompt);
    SpanTotals.SpendConserved(calls, s, SpanTotals.MainCompletion);
    SpanTotals.ToolCallsAreDistinctIds(calls, s);
  }
}
