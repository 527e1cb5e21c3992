/** Reconciliation as it runs, on the deriver's own set: indexes built in loops, an explicit
    stack, stamps written into the retained nodes, anchors into the sources. */
module Reconciler {
  import opened Llm
  import opened DeriveModel
  import opened DeriverModel
  import opened ReconcileModel
  import opened Deriver
  import ForestWalk
  import CodexSpawns

  type ChildIndex = map<Hash, seq<Hash>>

  function Below(children: ChildIndex, p: Hash): seq<Hash> {
    if p in children then children[p] else []
  }

  /** The children index over the main nodes, and the roots. */
  method IndexNodes(dv: StreamingDeriver) returns (children: ChildIndex, roots: seq<Hash>)
    ensures forall p :: Below(children, p) == Children(dv.State(), p)
    ensures roots == Roots(dv.State())
  {
    hide ChildrenIn, RootsIn, IsMain;
    ghost var d := dv.State();
    children, roots := map[], [];
    NothingIndexed(d);
    var i := 0;
    while i < |dv.nodes|
      invariant 0 <= i <= |dv.nodes|
      invariant forall p :: Below(children, p) == ChildrenIn(d, p, i)
      invariant roots == RootsIn(d, i)
    {
      var h := dv.nodes[i];
      ghost var before := children;
      if h in dv.byHash && dv.byHash[h].node.kind == Main {
        if h.parent.None? {
          roots := roots + [h];
        } else {
          children := children[h.parent.value := Below(children, h.parent.value) + [h]];
        }
      }
      IndexStep(d, h, i);
      forall p ensures Below(children, p) == ChildrenIn(d, p, i + 1) {
        assert Below(before, p) == ChildrenIn(d, p, i);
        IndexStep(d, p, i);
      }
      i := i + 1;
    }
  }

  lemma NothingIndexed(d: Derived)
    ensures RootsIn(d, 0) == [] && forall p :: ChildrenIn(d, p, 0) == []
  {
  }

  lemma IndexStep(d: Derived, p: Hash, i: nat)
    requires i < |d.nodes|
    ensures var h := d.nodes[i];
            var main := h in d.byHash && d.byHash[h].node.kind == Main;
            && ChildrenIn(d, p, i + 1) == (if main && h.parent == Some(p) then ChildrenIn(d, p, i) + [h] else ChildrenIn(d, p, i))
            && RootsIn(d, i + 1) == (if main && h.parent.None? then RootsIn(d, i) + [h] else RootsIn(d, i))
  {
  }

  /** One node's blocks against every candidate. */
  method ScoreNode(sign: Signer, blocks: seq<ContentBlock>, candidates: seq<TranscriptFile>, overlap: seq<nat>)
    returns (scored: seq<nat>, matched: bool)
    requires |overlap| == |candidates|
    ensures |scored| == |candidates|
    ensures forall k | 0 <= k < |candidates| :: scored[k] == overlap[k] + BlockOverlap(sign, blocks, |blocks|, candidates[k])
    ensures matched <==> exists b, f :: b in blocks && f in candidates && Signed(sign, b, f)
  {
    scored, matched := overlap, false;
    var i := 0;
    while i < |blocks|
      invariant 0 <= i <= |blocks| && |scored| == |candidates|
      invariant forall k | 0 <= k < |candidates| :: scored[k] == overlap[k] + BlockOverlap(sign, blocks, i, candidates[k])
      invariant matched <==> exists b, f :: b in blocks[..i] && f in candidates && Signed(sign, b, f)
    {
      ghost var before, had := scored, matched;
      var k := 0;
      while k < |candidates|
        invariant 0 <= k <= |candidates| && |scored| == |candidates|
        invariant forall m | 0 <= m < |candidates| ::
                    scored[m] == before[m] + (if m < k && Signed(sign, blocks[i], candidates[m]) then 1 else 0)
        invariant matched <==> had || exists f :: f in candidates[..k] && Signed(sign, blocks[i], f)
      {
        assert candidates[..k + 1] == candidates[..k] + [candidates[k]];
        if Signed(sign, blocks[i], candidates[k]) {
          scored := scored[k := scored[k] + 1];
          matched := true;
        }
        k := k + 1;
      }
      assert candidates[..k] == candidates && blocks[..i + 1] == blocks[..i] + [blocks[i]];
      i := i + 1;
    }
    assert blocks[..i] == blocks;
  }

  /** The explicit-stack walk under one root, scoring as it goes. */
  method WalkChain(dv: StreamingDeriver, sign: Signer, children: ChildIndex, root: Hash,
                   candidates: seq<TranscriptFile>)
    returns (chain: seq<Hash>, overlap: seq<nat>, joined: nat)
    requires root in dv.nodes && forall p :: Below(children, p) == Children(dv.State(), p)
    ensures chain == ChainUnder(dv.State(), root) && |overlap| == |candidates|
    ensures forall k | 0 <= k < |candidates| :: overlap[k] == Overlap(dv.State(), sign, chain, candidates[k])
    ensures joined == Joined(dv.State(), sign, chain, candidates)
  {
    hide BlockOverlap, Children, WalkFrom, Overlap, Joined, Unvisited, Matched;
    ghost var d := dv.State();
    NothingScored(d, sign, candidates);
    chain, joined := [], 0;
    overlap := seq(|candidates|, _ => 0);
    var stack := [root];
    while stack != []
      invariant forall h | h in stack :: h in d.nodes
      invariant WalkFrom(d, stack, chain) == ChainUnder(d, root)
      invariant |overlap| == |candidates|
      invariant forall k | 0 <= k < |candidates| :: overlap[k] == Overlap(d, sign, chain, candidates[k])
      invariant joined == Joined(d, sign, chain, candidates)
      decreases Unvisited(d, chain), |stack|
    {
      WalkStep(d, stack, chain);
      var h := stack[|stack| - 1];
      stack := stack[..|stack| - 1];
      if h !in chain {
        var matched;
        overlap, matched := ScoreNode(sign, if h in dv.byHash then dv.byHash[h].node.bucket.content else [], candidates, overlap);
        if matched { joined := joined + 1; }
        ScoreSnoc(d, sign, chain, h, candidates);
        chain := chain + [h];
        stack := stack + Below(children, h);
      }
    }
    assert WalkFrom(d, [], chain) == chain by { WalkEnds(d, chain); }
  }

  lemma NothingScored(d: Derived, sign: Signer, candidates: seq<TranscriptFile>)
    ensures Joined(d, sign, [], candidates) == 0 && forall f :: Overlap(d, sign, [], f) == 0
  {
  }

  lemma WalkEnds(d: Derived, chain: seq<Hash>)
    ensures WalkFrom(d, [], chain) == chain
  {
  }

  lemma WalkStep(d: Derived, stack: seq<Hash>, chain: seq<Hash>)
    requires stack != [] && forall h | h in stack :: h in d.nodes
    ensures var h, rest := stack[|stack| - 1], stack[..|stack| - 1];
            && h in d.nodes && (forall x | x in rest :: x in d.nodes) && (forall x | x in Children(d, h) :: x in d.nodes)
            && (h in chain ==> WalkFrom(d, stack, chain) == WalkFrom(d, rest, chain))
            && (h !in chain ==> WalkFrom(d, stack, chain) == WalkFrom(d, rest + Children(d, h), chain + [h])
                                && Unvisited(d, chain + [h]) < Unvisited(d, chain))
  {
    hide ChildrenIn, IsMain;
    var h := stack[|stack| - 1];
    assert h in d.nodes;
    if h !in chain {
      assert h in Unvisited(d, chain) && h !in Unvisited(d, chain + [h]);
    }
  }

  lemma ScoreSnoc(d: Derived, sign: Signer, chain: seq<Hash>, h: Hash, candidates: seq<TranscriptFile>)
    ensures forall f :: Overlap(d, sign, chain + [h], f)
              == Overlap(d, sign, chain, f) + BlockOverlap(sign, Content(d, h), |Content(d, h)|, f)
    ensures Joined(d, sign, chain + [h], candidates)
         == Joined(d, sign, chain, candidates)
            + (if exists b, f :: b in Content(d, h) && f in candidates && Signed(sign, b, f) then 1 else 0)
  {
    hide BlockOverlap;
    assert (chain + [h])[..|chain|] == chain;
  }

  /** Identity first, then the greatest overlap. */
  method Choose(dv: StreamingDeriver, sign: Signer, root: Hash, ghost chain: seq<Hash>,
                candidates: seq<TranscriptFile>, overlap: seq<nat>)
    returns (best: Option<TranscriptFile>)
    requires root in dv.byHash && |overlap| == |candidates|
    requires forall k | 0 <= k < |candidates| :: overlap[k] == Overlap(dv.State(), sign, chain, candidates[k])
    ensures best == Best(dv.State(), sign, root, chain, candidates)
  {
    hide Overlap;
    ghost var d := dv.State();
    var thread := dv.byHash[root].node.thread;
    if thread != "" {
      var i := 0;
      while i < |candidates|
        invariant 0 <= i <= |candidates|
        invariant ByIdentity(thread, candidates) == ByIdentity(thread, candidates[i..])
      {
        if candidates[i].agentId == thread { return Some(candidates[i]); }
        assert candidates[i..][1..] == candidates[i + 1..];
        i := i + 1;
      }
    }
    assert ByIdentity(thread, candidates).None?;
    var at: Option<nat> := None;
    var i := 0;
    while i < |candidates|
      invariant 0 <= i <= |candidates|
      invariant at.Some? ==> at.value < i
      invariant Heaviest(d, sign, chain, candidates, i) == if at.None? then None else Some(candidates[at.value])
    {
      if at.None? || overlap[i] > overlap[at.value] { at := Some(i); }
      i := i + 1;
    }
    if at.Some? && overlap[at.value] == 0 { at := None; }
    best := if at.None? then None else Some(candidates[at.value]);
  }

  method StampChain(dv: StreamingDeriver, chain: seq<Hash>, id: string)
    modifies dv`byHash
    ensures dv.byHash == Stamped(old(dv.byHash), chain, id)
  {
    var i := 0;
    while i < |chain|
      invariant 0 <= i <= |chain|
      invariant dv.byHash == Stamped(old(dv.byHash), chain[..i], id)
    {
      var h := chain[i];
      if h in dv.byHash {
        dv.byHash := dv.byHash[h := dv.byHash[h].(node := dv.byHash[h].node.(forkStamp := id))];
      }
      assert chain[..i + 1][..i] == chain[..i];
      i := i + 1;
    }
    assert chain[..i] == chain;
  }

  method SessionFiles(session: Session, files: seq<TranscriptFile>) returns (r: seq<TranscriptFile>)
    ensures r == For(session, files)
  {
    r := [];
    var i := 0;
    while i < |files|
      invariant 0 <= i <= |files|
      invariant r == For(session, files[..i])
    {
      if files[i].started && files[i].session == session { r := r + [files[i]]; }
      assert files[..i + 1][..i] == files[..i];
      i := i + 1;
    }
    assert files[..i] == files;
  }

  method ReconcileOne(dv: StreamingDeriver, sign: Signer, files: seq<TranscriptFile>, authoritative: set<Session>,
                      children: ChildIndex, root: Hash, stats: ChainStats) returns (counted: ChainStats)
    requires root in dv.nodes && root in dv.byHash
    requires forall p :: Below(children, p) == Children(dv.State(), p)
    modifies dv`byHash
    ensures (dv.State(), counted) == ReconcileRoot(old(dv.State()), sign, files, authoritative, root, stats)
  {
    hide Best, ChainUnder, For, Joined, Stamped, Overlap, Children;
    counted := stats;
    if dv.byHash[root].session !in authoritative { return; }
    var candidates := SessionFiles(dv.byHash[root].session, files);
    if candidates == [] { return; }
    var chain, overlap, joined := WalkChain(dv, sign, children, root, candidates);
    counted := counted.(total := counted.total + |chain|, joined := counted.joined + joined);
    var best := Choose(dv, sign, root, chain, candidates, overlap);
    if best.None? { return; }
    if best.value.agentId == "" {
      counted := counted.(mainJoined := counted.mainJoined + 1);
      return;
    }
    if best.value.toolUseId == "" { return; }
    StampChain(dv, chain, best.value.toolUseId);
    counted := counted.(forked := counted.forked + 1);
  }

  /** reconcileTranscriptChains */
  method ReconcileTranscriptChains(dv: StreamingDeriver, sign: Signer, files: seq<TranscriptFile>,
                                   authoritative: set<Session>)
    returns (stats: ChainStats)
    requires Filed(dv.State())
    modifies dv`byHash
    ensures (dv.State(), stats) == ReconcileRoots(old(dv.State()), sign, files, authoritative, |Roots(old(dv.State()))|)
  {
    hide ReconcileRoot, Roots, Filed, Children;
    ghost var d := dv.State();
    stats := NO_CHAINS;
    ForestWalk.RootsAreKept(d);
    var children, roots := IndexNodes(dv);
    var i := 0;
    while i < |roots|
      invariant 0 <= i <= |roots|
      invariant (dv.State(), stats) == ReconcileRoots(d, sign, files, authoritative, i)
      invariant forall p :: Below(children, p) == Children(dv.State(), p)
    {
      assert roots[i] in Roots(d);
      stats := ReconcileOne(dv, sign, files, authoritative, children, roots[i], stats);
      i := i + 1;
      ForestWalk.OnlyStampsChange(d, sign, files, authoritative, i);
      forall p ensures Below(children, p) == Children(dv.State(), p) { SameIndex(d, dv.State(), p); }
    }
  }

  lemma SameIndex(d: Derived, e: Derived, p: Hash)
    requires ForestWalk.SameButStamps(d, e)
    ensures Children(d, p) == Children(e, p)
  {
    hide ForestWalk.SameButStamps;
    ForestWalk.SameChildren(d, e, p, |d.nodes|);
  }

  // ---------------------------------------------------------------- codex spawns

  method AnchorRows(files: seq<TranscriptFile>) returns (rows: map<Key, TranscriptFile>, interacted: nat)
    ensures forall k :: (if k in rows then Some(rows[k]) else None) == AnchorRow(files, k)
    ensures interacted == Interacted(files)
  {
    rows, interacted := map[], 0;
    var i := 0;
    while i < |files|
      invariant 0 <= i <= |files|
      invariant forall k :: (if k in rows then Some(rows[k]) else None) == AnchorRow(files[..i], k)
      invariant interacted == Interacted(files[..i])
    {
      var f := files[i];
      assert files[..i + 1][..i] == files[..i];
      if IsAnchor(f) {
        if f.started { rows := rows[Key(f.session, f.agentId) := f]; } else { interacted := interacted + 1; }
      }
      i := i + 1;
    }
    assert files[..i] == files;
  }

  method SpawnJoins(dv: StreamingDeriver, name: TaskName) returns (j: Joins)
    requires CodexSpawns.Aligned(dv.sources)
    ensures j == JoinAll(dv.State(), name, dv.sources)
  {
    hide JoinBlock;
    ghost var d := dv.State();
    j := Joins(map[], {});
    var i := 0;
    while i < |dv.sources|
      invariant 0 <= i <= |dv.sources|
      invariant j == JoinAll(d, name, dv.sources[..i])
    {
      var s := dv.sources[i];
      assert dv.sources[..i + 1][..i] == dv.sources[..i];
      if WireCodex(s) { j := JoinSource(dv, name, j, s); }
      i := i + 1;
    }
    assert dv.sources[..i] == dv.sources;
  }

  method JoinSource(dv: StreamingDeriver, name: TaskName, before: Joins, s: Source) returns (j: Joins)
    requires |s.isNew| == |s.chain|
    ensures j == JoinChain(dv.State(), name, before, s, |s.chain|)
  {
    j := before;
    var n := 0;
    while n < |s.chain|
      invariant 0 <= n <= |s.chain|
      invariant j == JoinChain(dv.State(), name, before, s, n)
    {
      if s.isNew[n] {
        var blocks := if s.chain[n] in dv.byHash then dv.byHash[s.chain[n]].node.bucket.content else [];
        ghost var start := j;
        var b := 0;
        while b < |blocks|
          invariant 0 <= b <= |blocks|
          invariant j == JoinBlocks(name, start, s.session, blocks, b)
        {
          j := JoinBlock(name, j, s.session, blocks[b]);
          b := b + 1;
        }
      }
      n := n + 1;
    }
  }

  method ResolveAnchor(rows: map<Key, TranscriptFile>, ghost files: seq<TranscriptFile>, j: Joins,
                       threads: map<Key, ThreadMeta>, thread: Key)
    returns (anchor: string)
    requires forall k :: (if k in rows then Some(rows[k]) else None) == AnchorRow(files, k)
    ensures anchor == SpawnAnchor(files, j, threads, thread)
  {
    hide AnchorRow;
    assert (if thread in rows then Some(rows[thread]) else None) == AnchorRow(files, thread);
    anchor := "";
    if thread in rows {
      anchor := rows[thread].toolUseId;
    } else if thread in threads && threads[thread].path != "" {
      var path := Key(thread.session, threads[thread].path);
      if path !in j.ambiguous && path in j.byPath { anchor := j.byPath[path]; }
    }
  }

  /** The threads of codex wire calls that resolve to a spawn. */
  ghost function AnchoredThreads(d: Derived, name: TaskName, files: seq<TranscriptFile>, threads: map<Key, ThreadMeta>): set<Key>
    requires CodexSpawns.Aligned(d.sources)
  {
    set s | s in d.sources && s.wire && s.session.harness == "codex" && s.thread != ""
            && SpawnAnchor(files, JoinAll(d, name, d.sources), threads, Key(s.session, s.thread)) != "" :: Key(s.session, s.thread)
  }

  /** The codex threads the wire calls show. */
  ghost function ThreadsSeen(sources: seq<Source>): set<Key> {
    set s | s in sources && s.wire && s.session.harness == "codex" && s.thread != "" :: Key(s.session, s.thread)
  }

  lemma ThreadsAre(sources: seq<Source>)
    ensures ThreadsSeen(sources) == set k | 0 <= k < |sources| && IsThreadCall(sources[k]) :: ThreadOf(sources[k])
  {
  }

  lemma AnchoredAre(d: Derived, name: TaskName, files: seq<TranscriptFile>, threads: map<Key, ThreadMeta>)
    requires CodexSpawns.Aligned(d.sources)
    ensures AnchoredThreads(d, name, files, threads)
         == set k | k in ThreadsSeen(d.sources) && SpawnAnchor(files, JoinAll(d, name, d.sources), threads, k) != ""
  {
    hide SpawnAnchor, JoinAll;
  }

  lemma AnchoredIs(files: seq<TranscriptFile>, j: Joins, threads: map<Key, ThreadMeta>, s: Source)
    ensures IsThreadCall(s) && SpawnAnchor(files, j, threads, ThreadOf(s)) != "" ==>
              Anchored(files, j, threads, s) == s.(anchor := SpawnAnchor(files, j, threads, ThreadOf(s)))
    ensures !IsThreadCall(s) || SpawnAnchor(files, j, threads, ThreadOf(s)) == "" ==> Anchored(files, j, threads, s) == s
  {
    hide SpawnAnchor;
  }

  /** reconcileCodexSpawns: anchors, the distinct threads seen and the anchored among them. */
  method ReconcileCodexSpawns(dv: StreamingDeriver, name: TaskName, files: seq<TranscriptFile>,
                              threads: map<Key, ThreadMeta>)
    returns (seen: set<Key>, anchored: set<Key>, interacted: nat)
    requires CodexSpawns.Aligned(dv.sources)
    modifies dv`sources
    ensures dv.sources == AnchoredAll(files, JoinAll(old(dv.State()), name, old(dv.sources)), threads, old(dv.sources))
    ensures interacted == Interacted(files)
    ensures seen == ThreadsSeen(old(dv.sources)) && anchored <= seen
    ensures anchored == AnchoredThreads(old(dv.State()), name, files, threads)
  {
    hide JoinAll, AnchorRow, Interacted, SpawnAnchor, IsThreadCall, ThreadOf, AnchoredThreads, ThreadsSeen, Anchored;
    var rows;
    rows, interacted := AnchorRows(files);
    var j := SpawnJoins(dv, name);
    ghost var before := dv.sources;
    seen, anchored := {}, {};
    var i := 0;
    while i < |dv.sources|
      invariant 0 <= i <= |dv.sources| == |before|
      invariant forall k | 0 <= k < i :: dv.sources[k] == Anchored(files, j, threads, before[k])
      invariant forall k | i <= k < |before| :: dv.sources[k] == before[k]
      invariant seen == set k | 0 <= k < i && IsThreadCall(before[k]) :: ThreadOf(before[k])
      invariant anchored == set k | k in seen && SpawnAnchor(files, j, threads, k) != ""
    {
      var s := dv.sources[i];
      AnchoredIs(files, j, threads, s);
      if IsThreadCall(s) {
        var anchor := ResolveAnchor(rows, files, j, threads, ThreadOf(s));
        if anchor != "" {
          dv.sources := dv.sources[i := s.(anchor := anchor)];
          anchored := anchored + {ThreadOf(s)};
        }
        seen := seen + {ThreadOf(s)};
      }
      i := i + 1;
    }
    ThreadsAre(before);
    AnchoredAre(old(dv.State()), name, files, threads);
  }

  /** ReconcileTranscripts */
  method ReconcileTranscripts(dv: StreamingDeriver, sign: Signer, name: TaskName, files: seq<TranscriptFile>,
                              threads: map<Key, ThreadMeta>)
    returns (forks: set<string>, stats: ChainStats, anchoredThreads: nat, unanchored: nat, interacted: nat)
    requires Filed(dv.State()) && CodexSpawns.Aligned(dv.sources)
    modifies dv`byHash, dv`sources
    ensures dv.State() == CodexSpawns.Reconcile(old(dv.State()), sign, name, files, threads)
    ensures forks == set f | f in files && f.started && f.agentId != "" && f.toolUseId != "" :: f.toolUseId
    ensures stats == ReconcileRoots(old(dv.State()), sign, files, Authoritative(old(dv.sources)), |Roots(old(dv.State()))|).1
    ensures anchoredThreads + unanchored == |ThreadsSeen(old(dv.sources))|
    ensures var r := ReconcileRoots(old(dv.State()), sign, files, Authoritative(old(dv.sources)), |Roots(old(dv.State()))|).0;
            anchoredThreads == |AnchoredThreads(r, name, files, threads)|
    ensures interacted == Interacted(files)
  {
    hide ReconcileRoots, JoinAll, AnchoredAll, Filed, Roots, AnchoredThreads, ThreadsSeen, Interacted;
    forks := ForkedTools(files);
    var authoritative := WireSessions(dv);
    stats := ReconcileTranscriptChains(dv, sign, files, authoritative);
    var seen, anchored;
    seen, anchored, interacted := ReconcileCodexSpawns(dv, name, files, threads);
    assert seen == anchored + (seen - anchored);
    anchoredThreads, unanchored := |anchored|, |seen - anchored|;
  }

  /** The spawn calls the started files name. */
  method ForkedTools(files: seq<TranscriptFile>) returns (forks: set<string>)
    ensures forks == set f | f in files && f.started && f.agentId != "" && f.toolUseId != "" :: f.toolUseId
  {
    forks := {};
    var i := 0;
    while i < |files|
      invariant 0 <= i <= |files|
      invariant forks == set k | 0 <= k < i && files[k].started && files[k].agentId != "" && files[k].toolUseId != "" :: files[k].toolUseId
    {
      if files[i].started && files[i].agentId != "" && files[i].toolUseId != "" { forks := forks + {files[i].toolUseId}; }
      i := i + 1;
    }
  }

  /** Sessions whose main calls all come off the wire. */
  method WireSessions(dv: StreamingDeriver) returns (authoritative: set<Session>)
    ensures authoritative == Authoritative(dv.sources)
  {
    authoritative := {};
    var fallback: set<Session> := {};
    var i := 0;
    while i < |dv.sources|
      invariant 0 <= i <= |dv.sources|
      invariant authoritative == set k | 0 <= k < i && dv.sources[k].kind == Main && dv.sources[k].wire :: dv.sources[k].session
      invariant fallback == set k | 0 <= k < i && dv.sources[k].kind == Main && !dv.sources[k].wire :: dv.sources[k].session
    {
      var src := dv.sources[i];
      if src.kind == Main {
        if src.wire { authoritative := authoritative + {src.session}; } else { fallback := fallback + {src.session}; }
      }
      i := i + 1;
    }
    assert authoritative == set s | s in dv.sources && s.kind == Main && s.wire :: s.session;
    assert fallback == set s | s in dv.sources && s.kind == Main && !s.wire :: s.session;
    authoritative := authoritative - fallback;
  }
}
