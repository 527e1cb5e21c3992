/** The agent-path join is exact: a path anchors a thread exactly when the capture reports one
    spawn id for it, whatever the order of calls; interacted rows are inert. */
module CodexSpawns {
  import opened Llm
  import opened DeriveModel
  import opened DeriverModel
  import opened ReconcileModel
  import ForestWalk

  type Reported = set<(Key, string)>

  /** A tool result whose output names an agent path. */
  ghost predicate Tells(name: TaskName, b: ContentBlock)
    ensures Tells(name, b) <==> Reports(name, b)
  {
    b.kind.ToolResult? && b.toolResultId != "" && name(b.toolOutput) != ""
  }

  ghost predicate OffWire(s: Source)
    ensures OffWire(s) <==> WireCodex(s)
  {
    s.session.harness == "codex" && s.wire
  }

  ghost function BlockReports(name: TaskName, s: Session, blocks: seq<ContentBlock>): Reported {
    set b | b in blocks && Tells(name, b) :: (Key(s, name(b.toolOutput)), b.toolResultId)
  }

  /** The spawn ids reported for paths by the blocks one call captured first. */
  ghost function CallReports(d: Derived, name: TaskName, s: Source): Reported
    requires |s.isNew| == |s.chain|
  {
    set i, r | 0 <= i < |s.chain| && s.isNew[i] && r in BlockReports(name, s.session, Content(d, s.chain[i])) :: r
  }

  ghost predicate Aligned(sources: seq<Source>) {
    forall s | s in sources :: |s.isNew| == |s.chain|
  }

  /** Every (path, spawn id) pair the wire calls report: a set, so no order is left in it. */
  ghost function AllReports(d: Derived, name: TaskName, sources: seq<Source>): Reported
    requires Aligned(sources)
  {
    set s, r | s in sources && OffWire(s) && r in CallReports(d, name, s) :: r
  }

  ghost predicate Means(j: Joins, rs: Reported) {
    && (forall k :: k in j.byPath <==> exists id :: (k, id) in rs)
    && (forall k | k in j.byPath :: (k, j.byPath[k]) in rs)
    && (forall k :: k in j.ambiguous <==> exists a, b :: a != b && (k, a) in rs && (k, b) in rs)
  }

  lemma JoinOne(name: TaskName, j: Joins, rs: Reported, s: Session, b: ContentBlock)
    requires Means(j, rs)
    ensures Reports(name, b) ==> Means(JoinBlock(name, j, s, b), rs + {(Key(s, name(b.toolOutput)), b.toolResultId)})
    ensures !Reports(name, b) ==> JoinBlock(name, j, s, b) == j
  {
    if Reports(name, b) {
      var key, id := Key(s, name(b.toolOutput)), b.toolResultId;
      var all := rs + {(key, id)};
      var r := JoinBlock(name, j, s, b);
      forall k ensures k in r.byPath <==> exists x :: (k, x) in all {
        if k == key { assert (key, id) in all; }
        if x :| (k, x) in all { assert k != key ==> (k, x) in rs; }
        if k in j.byPath { assert (k, j.byPath[k]) in all; }
      }
      forall k ensures k in r.ambiguous <==> exists x, y :: x != y && (k, x) in all && (k, y) in all {
        if k in r.ambiguous {
          if k in j.ambiguous {
            var x, y :| x != y && (k, x) in rs && (k, y) in rs;
            assert (k, x) in all && (k, y) in all;
          } else {
            assert (key, j.byPath[key]) in all && (key, id) in all;
          }
        }
      }
    }
  }

  lemma {:induction false} JoinBlocksMean(name: TaskName, j: Joins, rs: Reported, s: Session,
                                          blocks: seq<ContentBlock>, n: nat)
    requires n <= |blocks| && Means(j, rs)
    ensures Means(JoinBlocks(name, j, s, blocks, n), rs + BlockReports(name, s, blocks[..n]))
  {
    hide Means, Reports, Tells;
    if n == 0 {
      assert rs + BlockReports(name, s, blocks[..0]) == rs;
    } else {
      JoinBlocksMean(name, j, rs, s, blocks, n - 1);
      var b := blocks[n - 1];
      var before := rs + BlockReports(name, s, blocks[..n - 1]);
      assert blocks[..n] == blocks[..n - 1] + [b];
      JoinOne(name, JoinBlocks(name, j, s, blocks, n - 1), before, s, b);
      if Reports(name, b) {
        assert rs + BlockReports(name, s, blocks[..n]) == before + {(Key(s, name(b.toolOutput)), b.toolResultId)};
      } else {
        assert rs + BlockReports(name, s, blocks[..n]) == before;
      }
    }
  }

  ghost function ReportsBelow(d: Derived, name: TaskName, s: Source, n: nat): Reported
    requires n <= |s.chain| && n <= |s.isNew|
  {
    set i, r | 0 <= i < n && s.isNew[i] && r in BlockReports(name, s.session, Content(d, s.chain[i])) :: r
  }

  lemma {:induction false} JoinChainMeans(d: Derived, name: TaskName, j: Joins, rs: Reported, s: Source, n: nat)
    requires n <= |s.chain| && n <= |s.isNew| && Means(j, rs)
    ensures Means(JoinChain(d, name, j, s, n), rs + ReportsBelow(d, name, s, n))
  {
    hide Means, BlockReports, JoinBlocks;
    if n == 0 {
      assert rs + ReportsBelow(d, name, s, 0) == rs;
    } else {
      JoinChainMeans(d, name, j, rs, s, n - 1);
      var before := rs + ReportsBelow(d, name, s, n - 1);
      var blocks := Content(d, s.chain[n - 1]);
      if s.isNew[n - 1] {
        JoinBlocksMean(name, JoinChain(d, name, j, s, n - 1), before, s.session, blocks, |blocks|);
        assert blocks[..|blocks|] == blocks;
        assert rs + ReportsBelow(d, name, s, n) == before + BlockReports(name, s.session, blocks);
      } else {
        assert rs + ReportsBelow(d, name, s, n) == before;
      }
    }
  }

  lemma {:induction false} JoinAllMeans(d: Derived, name: TaskName, sources: seq<Source>)
    requires Aligned(sources)
    ensures Means(JoinAll(d, name, sources), AllReports(d, name, sources))
  {
    hide Means, BlockReports, JoinChain;
    if sources == [] {
      assert AllReports(d, name, []) == {};
      NothingReported();
    } else {
      var rest, s := sources[..|sources| - 1], sources[|sources| - 1];
      JoinAllMeans(d, name, rest);
      assert sources == rest + [s];
      if WireCodex(s) {
        JoinChainMeans(d, name, JoinAll(d, name, rest), AllReports(d, name, rest), s, |s.chain|);
        assert ReportsBelow(d, name, s, |s.chain|) == CallReports(d, name, s);
        assert AllReports(d, name, sources) == AllReports(d, name, rest) + CallReports(d, name, s);
      } else {
        assert AllReports(d, name, sources) == AllReports(d, name, rest);
      }
    }
  }

  lemma NothingReported()
    ensures Means(Joins(map[], {}), {})
  {
  }

  /** The ids reported for one path. */
  ghost predicate OnlyId(rs: Reported, k: Key, id: string) {
    (k, id) in rs && forall x | (k, x) in rs :: x == id
  }

  /** A path joins exactly when its set of spawn ids is a singleton, and then to that id. */
  lemma PathJoinsIffSingleton(d: Derived, name: TaskName, sources: seq<Source>, k: Key)
    requires Aligned(sources)
    ensures var j, rs := JoinAll(d, name, sources), AllReports(d, name, sources);
            && (k in j.byPath && k !in j.ambiguous <==> exists id :: OnlyId(rs, k, id))
            && (forall id | OnlyId(rs, k, id) :: k in j.byPath && j.byPath[k] == id)
  {
    hide AllReports, JoinAll;
    JoinAllMeans(d, name, sources);
    var j, rs := JoinAll(d, name, sources), AllReports(d, name, sources);
    if k in j.byPath && k !in j.ambiguous { assert OnlyId(rs, k, j.byPath[k]); }
  }

  /** So the anchor of a thread is decided by the set of reported pairs alone. */
  lemma AnchorFromReports(d: Derived, e: Derived, name: TaskName, files: seq<TranscriptFile>, threads: map<Key, ThreadMeta>,
                          thread: Key)
    requires Aligned(d.sources) && Aligned(e.sources) && AllReports(d, name, d.sources) == AllReports(e, name, e.sources)
    ensures SpawnAnchor(files, JoinAll(d, name, d.sources), threads, thread)
         == SpawnAnchor(files, JoinAll(e, name, e.sources), threads, thread)
  {
    hide JoinAll, AllReports;
    if thread in threads {
      var k := Key(thread.session, threads[thread].path);
      PathJoinsIffSingleton(d, name, d.sources, k);
      PathJoinsIffSingleton(e, name, e.sources, k);
    }
  }

  // ---------------------------------------------------------------- idempotence

  lemma {:induction false} JoinsIgnoreAnchors(d: Derived, name: TaskName, a: seq<Source>, b: seq<Source>)
    requires Aligned(a) && |a| == |b| && forall k | 0 <= k < |a| :: b[k] == a[k].(anchor := b[k].anchor)
    ensures Aligned(b) && JoinAll(d, name, a) == JoinAll(d, name, b)
  {
    forall s | s in b ensures |s.isNew| == |s.chain| {
      var k :| 0 <= k < |b| && b[k] == s;
      assert a[k] in a;
    }
    if a != [] {
      JoinsIgnoreAnchors(d, name, a[..|a| - 1], b[..|b| - 1]);
      ChainIgnoresAnchor(d, name, JoinAll(d, name, a[..|a| - 1]), a[|a| - 1], b[|b| - 1], |a[|a| - 1].chain|);
    }
  }

  lemma {:induction false} ChainIgnoresAnchor(d: Derived, name: TaskName, j: Joins, s: Source, t: Source, n: nat)
    requires t == s.(anchor := t.anchor) && n <= |s.chain| && n <= |s.isNew|
    ensures JoinChain(d, name, j, s, n) == JoinChain(d, name, j, t, n)
  {
    if n > 0 { ChainIgnoresAnchor(d, name, j, s, t, n - 1); }
  }

  /** Anchoring anchored calls changes nothing. */
  lemma AnchoringTwiceIsOnce(d: Derived, name: TaskName, files: seq<TranscriptFile>, threads: map<Key, ThreadMeta>,
                             sources: seq<Source>)
    requires Aligned(sources)
    ensures var once := AnchoredAll(files, JoinAll(d, name, sources), threads, sources);
            Aligned(once) && AnchoredAll(files, JoinAll(d, name, once), threads, once) == once
  {
    hide JoinAll, AnchorRow;
    var j := JoinAll(d, name, sources);
    var once := AnchoredAll(files, j, threads, sources);
    JoinsIgnoreAnchors(d, name, sources, once);
    forall k | 0 <= k < |once| ensures Anchored(files, j, threads, once[k]) == once[k] {
      assert once[k] == Anchored(files, j, threads, sources[k]);
    }
  }

  // ---------------------------------------------------------------- interacted rows

  ghost function Evidence(files: seq<TranscriptFile>): seq<TranscriptFile> {
    if files == [] then []
    else
      var f := files[|files| - 1];
      Evidence(files[..|files| - 1]) + (if f.started then [f] else [])
  }

  lemma {:induction false} EvidenceDecides(files: seq<TranscriptFile>, s: Session, key: Key)
    ensures For(s, files) == For(s, Evidence(files))
    ensures AnchorRow(files, key) == AnchorRow(Evidence(files), key)
    ensures Interacted(Evidence(files)) == 0
  {
    if files != [] {
      var rest, f := files[..|files| - 1], files[|files| - 1];
      EvidenceDecides(rest, s, key);
      if f.started {
        assert Evidence(files)[..|Evidence(rest)|] == Evidence(rest);
      } else {
        assert Evidence(files) == Evidence(rest);
      }
    }
  }

  lemma {:induction false} RootsReadEvidence(d: Derived, sign: Signer, f1: seq<TranscriptFile>, f2: seq<TranscriptFile>,
                                             authoritative: set<Session>, n: nat)
    requires Filed(d) && n <= |Roots(d)| && Evidence(f1) == Evidence(f2)
    ensures ReconcileRoots(d, sign, f1, authoritative, n) == ReconcileRoots(d, sign, f2, authoritative, n)
  {
    hide Roots, Filed, ReconcileRoot;
    if n > 0 {
      RootsReadEvidence(d, sign, f1, f2, authoritative, n - 1);
      var before := ReconcileRoots(d, sign, f1, authoritative, n - 1);
      var root := Roots(d)[n - 1];
      ForestWalk.RootsAreKept(d);
      assert root in Roots(d);
      RootReadsEvidence(before.0, sign, f1, f2, authoritative, root, before.1);
    }
  }

  lemma RootReadsEvidence(d: Derived, sign: Signer, f1: seq<TranscriptFile>, f2: seq<TranscriptFile>,
                          authoritative: set<Session>, root: Hash, stats: ChainStats)
    requires root in d.nodes && root in d.byHash && Evidence(f1) == Evidence(f2)
    ensures ReconcileRoot(d, sign, f1, authoritative, root, stats) == ReconcileRoot(d, sign, f2, authoritative, root, stats)
  {
    hide ChainUnder, Best, Joined, Stamped, For, AnchorRow, Evidence;
    var s := d.byHash[root].session;
    EvidenceDecides(f1, s, Key(s, ""));
    EvidenceDecides(f2, s, Key(s, ""));
  }

  /** Files that differ only in rows that are not spawn evidence reconcile alike: the same
      stamps, the same chain counts, the same anchors. Only the row counters tell. */
  lemma InteractedRowsAreInert(d: Derived, sign: Signer, name: TaskName, threads: map<Key, ThreadMeta>,
                               f1: seq<TranscriptFile>, f2: seq<TranscriptFile>, authoritative: set<Session>)
    requires Filed(d) && Aligned(d.sources) && Evidence(f1) == Evidence(f2)
    ensures ReconcileRoots(d, sign, f1, authoritative, |Roots(d)|) == ReconcileRoots(d, sign, f2, authoritative, |Roots(d)|)
    ensures AnchoredAll(f1, JoinAll(d, name, d.sources), threads, d.sources)
         == AnchoredAll(f2, JoinAll(d, name, d.sources), threads, d.sources)
  {
    hide ReconcileRoots, JoinAll, AnchorRow;
    RootsReadEvidence(d, sign, f1, f2, authoritative, |Roots(d)|);
    var j := JoinAll(d, name, d.sources);
    forall k | 0 <= k < |d.sources|
      ensures Anchored(f1, j, threads, d.sources[k]) == Anchored(f2, j, threads, d.sources[k])
    {
      var s := d.sources[k];
      EvidenceDecides(f1, s.session, Key(s.session, s.thread));
      EvidenceDecides(f2, s.session, Key(s.session, s.thread));
    }
    assert AnchoredAll(f1, j, threads, d.sources) == AnchoredAll(f2, j, threads, d.sources);
  }

  // ---------------------------------------------------------------- both stages together

  /** ReconcileTranscripts: fork stamps on the nodes, then anchors on the calls. */
  ghost function Reconcile(d: Derived, sign: Signer, name: TaskName, files: seq<TranscriptFile>,
                           threads: map<Key, ThreadMeta>): Derived
    requires Filed(d) && Aligned(d.sources)
  {
    var r := ReconcileRoots(d, sign, files, Authoritative(d.sources), |Roots(d)|).0;
    r.(sources := AnchoredAll(files, JoinAll(r, name, r.sources), threads, r.sources))
  }

  lemma {:induction false} JoinsReadNodes(d: Derived, e: Derived, name: TaskName, sources: seq<Source>)
    requires e.byHash == d.byHash && Aligned(sources)
    ensures JoinAll(d, name, sources) == JoinAll(e, name, sources)
  {
    if sources != [] {
      var s := sources[|sources| - 1];
      JoinsReadNodes(d, e, name, sources[..|sources| - 1]);
      ChainReadsNodes(d, e, name, JoinAll(d, name, sources[..|sources| - 1]), s, |s.chain|);
    }
  }

  lemma {:induction false} ChainReadsNodes(d: Derived, e: Derived, name: TaskName, j: Joins, s: Source, n: nat)
    requires e.byHash == d.byHash && n <= |s.chain| && n <= |s.isNew|
    ensures JoinChain(d, name, j, s, n) == JoinChain(e, name, j, s, n)
  {
    if n > 0 { ChainReadsNodes(d, e, name, j, s, n - 1); }
  }

  lemma AuthorityIgnoresAnchors(a: seq<Source>, b: seq<Source>)
    requires |a| == |b| && forall k | 0 <= k < |a| :: b[k] == a[k].(anchor := b[k].anchor)
    ensures Authoritative(a) == Authoritative(b)
  {
    hide Authoritative;
    forall wire: bool ensures MainSessions(a, wire) == MainSessions(b, wire) {
      forall s | s in MainSessions(a, wire) ensures s in MainSessions(b, wire) {
        var k :| 0 <= k < |a| && a[k].kind == Main && a[k].wire == wire && a[k].session == s;
        assert b[k] in b;
      }
      forall s | s in MainSessions(b, wire) ensures s in MainSessions(a, wire) {
        var k :| 0 <= k < |b| && b[k].kind == Main && b[k].wire == wire && b[k].session == s;
        assert a[k] in a;
      }
    }
    AuthorityIs(a);
    AuthorityIs(b);
  }

  ghost function MainSessions(sources: seq<Source>, wire: bool): set<Session> {
    set s | s in sources && s.kind == Main && s.wire == wire :: s.session
  }

  lemma AuthorityIs(sources: seq<Source>)
    ensures Authoritative(sources) == MainSessions(sources, true) - MainSessions(sources, false)
  {
  }

  /** Reconciliation is idempotent: a second pass over its own result changes nothing. */
  lemma ReconcileIsIdempotent(d: Derived, sign: Signer, name: TaskName, files: seq<TranscriptFile>,
                              threads: map<Key, ThreadMeta>)
    requires Filed(d) && Aligned(d.sources)
    ensures var once := Reconcile(d, sign, name, files, threads);
            Filed(once) && Aligned(once.sources) && Reconcile(once, sign, name, files, threads) == once
  {
    hide ReconcileRoots, Roots, JoinAll, Authoritative, Filed, Anchored;
    var authority := Authoritative(d.sources);
    var r := ReconcileRoots(d, sign, files, authority, |Roots(d)|).0;
    var once := Reconcile(d, sign, name, files, threads);
    ForestWalk.ReconcilingTwiceIsOnce(d, sign, files, authority);
    AnchoringTwiceIsOnce(r, name, files, threads, r.sources);
    FiledReadsNodes(r, once);
    AnchorsOnly(files, JoinAll(r, name, r.sources), threads, r.sources);
    AuthorityIgnoresAnchors(r.sources, once.sources);
    ForestWalk.RootsIgnoreSources(r, once, sign, files, authority, |Roots(d)|);
    JoinsReadNodes(r, once, name, once.sources);
    assert ReconcileRoots(once, sign, files, authority, |Roots(once)|).0 == once;
  }

  lemma FiledReadsNodes(d: Derived, e: Derived)
    requires Filed(d) && e.nodes == d.nodes && e.byHash == d.byHash
    ensures Filed(e)
  {
  }

  lemma AnchorsOnly(files: seq<TranscriptFile>, j: Joins, threads: map<Key, ThreadMeta>, sources: seq<Source>)
    ensures var r := AnchoredAll(files, j, threads, sources);
            forall k | 0 <= k < |r| :: r[k] == sources[k].(anchor := r[k].anchor)
  {
    hide SpawnAnchor, IsThreadCall;
  }
}
