/** The walk under a root visits its tree, all of it, once; so chains under distinct roots
    never meet, the stamps never conflict, and reconciling twice changes nothing. */
module ForestWalk {
  import opened Llm
  import opened DeriveModel
  import opened DeriverModel
  import opened ReconcileModel

  /** The root of the conversation a hash belongs to. */
  ghost function RootOf(h: Hash): Hash {
    match h.parent
    case None => h
    case Some(p) => RootOf(p)
  }

  /** A retained node of the main conversation. */
  ghost predicate Conversation(d: Derived, h: Hash)
    ensures Conversation(d, h) <==> IsMain(d, h)
  {
    h in d.byHash.Keys && d.byHash[h].node.kind.Main?
  }

  /** Main nodes all the way up. */
  ghost predicate OnMainPath(d: Derived, h: Hash) {
    && h in d.nodes && Conversation(d, h)
    && match h.parent
       case None => true
       case Some(p) => OnMainPath(d, p)
  }

  ghost predicate InTree(d: Derived, h: Hash, root: Hash) {
    OnMainPath(d, h) && RootOf(h) == root
  }

  ghost predicate AllIn(d: Derived, hs: seq<Hash>, root: Hash) {
    forall h | h in hs :: InTree(d, h, root)
  }

  ghost predicate NoRepeats(hs: seq<Hash>) {
    forall i, j | 0 <= i < j < |hs| :: hs[i] != hs[j]
  }

  /** Every child of a visited node is visited or waiting. */
  ghost predicate Closed(d: Derived, stack: seq<Hash>, chain: seq<Hash>) {
    forall p, h | p in chain && h in d.nodes && IsMain(d, h) && h.parent == Some(p) :: h in chain || h in stack
  }

  lemma ChildrenInTree(d: Derived, p: Hash, root: Hash)
    requires InTree(d, p, root)
    ensures AllIn(d, Children(d, p), root)
  {
  }

  lemma PopInTree(d: Derived, stack: seq<Hash>, chain: seq<Hash>, root: Hash)
    requires stack != [] && AllIn(d, stack, root) && AllIn(d, chain, root) && Closed(d, stack, chain) && NoRepeats(chain)
    ensures var h, rest := stack[|stack| - 1], stack[..|stack| - 1];
            && (h in chain ==> AllIn(d, rest, root) && Closed(d, rest, chain))
            && (h !in chain ==> AllIn(d, rest + Children(d, h), root) && AllIn(d, chain + [h], root)
                                && Closed(d, rest + Children(d, h), chain + [h]) && NoRepeats(chain + [h]))
  {
    hide InTree;
    var h, rest := stack[|stack| - 1], stack[..|stack| - 1];
    assert stack == rest + [h];
    ChildrenInTree(d, h, root);
  }

  lemma {:induction false} WalkInvariant(d: Derived, stack: seq<Hash>, chain: seq<Hash>, root: Hash)
    requires forall h | h in stack :: h in d.nodes
    requires AllIn(d, stack, root) && AllIn(d, chain, root) && Closed(d, stack, chain) && NoRepeats(chain)
    ensures var w := WalkFrom(d, stack, chain);
            AllIn(d, w, root) && Closed(d, [], w) && NoRepeats(w) && (forall h | h in chain || h in stack :: h in w)
    decreases Unvisited(d, chain), |stack|
  {
    hide AllIn, Closed, NoRepeats;
    if stack != [] {
      var h, rest := stack[|stack| - 1], stack[..|stack| - 1];
      PopInTree(d, stack, chain, root);
      if h in chain {
        WalkInvariant(d, rest, chain, root);
      } else {
        assert h in d.nodes && h in Unvisited(d, chain) && h !in Unvisited(d, chain + [h]);
        assert Unvisited(d, chain + [h]) < Unvisited(d, chain);
        WalkInvariant(d, rest + Children(d, h), chain + [h], root);
      }
    }
  }

  lemma {:induction false} ClosedHasTree(d: Derived, w: seq<Hash>, root: Hash, h: Hash)
    requires Closed(d, [], w) && root in w && InTree(d, h, root)
    ensures h in w
    decreases h
  {
    if h.parent.Some? { ClosedHasTree(d, w, root, h.parent.value); }
  }

  lemma RootIsInTree(d: Derived, root: Hash)
    requires root in Roots(d)
    ensures root in d.nodes && InTree(d, root, root) && root in d.byHash && root.parent == None
  {
    assert d.nodes[..|d.nodes|] == d.nodes;
  }

  /** The walk under a root is its main tree, every node of it, once. */
  lemma WalkIsTheTree(d: Derived, root: Hash)
    requires root in Roots(d) && root in d.nodes
    ensures NoRepeats(ChainUnder(d, root))
    ensures forall h :: h in ChainUnder(d, root) <==> InTree(d, h, root)
  {
    hide InTree;
    RootIsInTree(d, root);
    WalkInvariant(d, [root], [], root);
    var w := ChainUnder(d, root);
    forall h ensures h in w <==> InTree(d, h, root) {
      if InTree(d, h, root) { ClosedHasTree(d, w, root, h); }
    }
  }

  /** Walks from distinct roots are disjoint, whatever the set of nodes. */
  lemma ChainsAreDisjoint(d: Derived, r1: Hash, r2: Hash, h: Hash)
    requires r1 in Roots(d) && r2 in Roots(d) && r1 in d.nodes && r2 in d.nodes
    requires h in ChainUnder(d, r1) && h in ChainUnder(d, r2)
    ensures r1 == r2
  {
    WalkIsTheTree(d, r1);
    WalkIsTheTree(d, r2);
  }

  // ---------------------------------------------------------------- stamps are invisible

  ghost predicate SameNode(a: Kept, b: Kept) {
    a.session == b.session && a.node.(forkStamp := "") == b.node.(forkStamp := "")
  }

  /** e is d up to fork stamps. */
  ghost predicate SameButStamps(d: Derived, e: Derived) {
    && e.nodes == d.nodes && e.byHash.Keys == d.byHash.Keys
    && forall h | h in d.byHash :: SameNode(d.byHash[h], e.byHash[h])
  }

  lemma SameMain(d: Derived, e: Derived)
    requires SameButStamps(d, e)
    ensures e.nodes == d.nodes && forall h :: IsMain(d, h) <==> IsMain(e, h)
  {
    forall h | h in d.byHash ensures IsMain(d, h) <==> IsMain(e, h) {
      assert SameNode(d.byHash[h], e.byHash[h]);
    }
  }

  lemma {:induction false} SameChildren(d: Derived, e: Derived, p: Hash, n: nat)
    requires SameButStamps(d, e) && n <= |d.nodes|
    ensures e.nodes == d.nodes && ChildrenIn(d, p, n) == ChildrenIn(e, p, n) && RootsIn(d, n) == RootsIn(e, n)
  {
    hide SameButStamps, IsMain, ChildrenIn, RootsIn;
    SameMain(d, e);
    if n == 0 {
      NoneYet(d, p);
      NoneYet(e, p);
    } else {
      SameChildren(d, e, p, n - 1);
      SnocSame(d, e, p, n);
    }
  }

  lemma NoneYet(d: Derived, p: Hash)
    ensures RootsIn(d, 0) == [] && ChildrenIn(d, p, 0) == []
  {
  }

  lemma SnocSame(d: Derived, e: Derived, p: Hash, n: nat)
    requires e.nodes == d.nodes && 0 < n <= |d.nodes| && (IsMain(d, d.nodes[n - 1]) <==> IsMain(e, d.nodes[n - 1]))
    requires ChildrenIn(d, p, n - 1) == ChildrenIn(e, p, n - 1) && RootsIn(d, n - 1) == RootsIn(e, n - 1)
    ensures ChildrenIn(d, p, n) == ChildrenIn(e, p, n) && RootsIn(d, n) == RootsIn(e, n)
  {
    hide IsMain;
  }

  lemma {:induction false} SameWalk(d: Derived, e: Derived, stack: seq<Hash>, chain: seq<Hash>)
    requires SameButStamps(d, e) && forall h | h in stack :: h in d.nodes
    ensures WalkFrom(d, stack, chain) == WalkFrom(e, stack, chain)
    decreases Unvisited(d, chain), |stack|
  {
    hide SameButStamps;
    assert e.nodes == d.nodes by { SameNodes(d, e); }
    if stack != [] {
      var h, rest := stack[|stack| - 1], stack[..|stack| - 1];
      if h in chain {
        SameWalk(d, e, rest, chain);
      } else {
        SameChildren(d, e, h, |d.nodes|);
        assert h in d.nodes && h in Unvisited(d, chain) && h !in Unvisited(d, chain + [h]);
        assert Unvisited(d, chain + [h]) < Unvisited(d, chain);
        SameWalk(d, e, rest + Children(d, h), chain + [h]);
      }
    }
  }

  lemma SameNodes(d: Derived, e: Derived)
    requires SameButStamps(d, e)
    ensures e.nodes == d.nodes && forall h :: Content(d, h) == Content(e, h)
  {
    forall h ensures Content(d, h) == Content(e, h) {
      if h in d.byHash { assert SameNode(d.byHash[h], e.byHash[h]); }
    }
  }

  lemma {:induction false} SameScores(d: Derived, e: Derived, sign: Signer, chain: seq<Hash>,
                                      candidates: seq<TranscriptFile>)
    requires SameButStamps(d, e)
    ensures forall f :: Overlap(d, sign, chain, f) == Overlap(e, sign, chain, f)
    ensures Joined(d, sign, chain, candidates) == Joined(e, sign, chain, candidates)
  {
    hide SameButStamps, BlockOverlap;
    SameNodes(d, e);
    if chain != [] { SameScores(d, e, sign, chain[..|chain| - 1], candidates); }
  }

  lemma {:induction false} SameHeaviest(d: Derived, e: Derived, sign: Signer, chain: seq<Hash>,
                                        candidates: seq<TranscriptFile>, n: nat)
    requires n <= |candidates| && forall f :: Overlap(d, sign, chain, f) == Overlap(e, sign, chain, f)
    ensures Heaviest(d, sign, chain, candidates, n) == Heaviest(e, sign, chain, candidates, n)
  {
    hide Overlap;
    if n > 0 { SameHeaviest(d, e, sign, chain, candidates, n - 1); }
  }

  // ---------------------------------------------------------------- the closed form

  /** The fork edge the chain under a root gets, if any. */
  ghost function Verdict(d: Derived, sign: Signer, files: seq<TranscriptFile>, authoritative: set<Session>,
                         root: Hash): Option<string>
    requires root in d.nodes && root in d.byHash
  {
    if !TakesPart(d, files, authoritative, root) then None
    else
      var best := Best(d, sign, root, ChainUnder(d, root), For(d.byHash[root].session, files));
      if best.None? || best.value.agentId == "" || best.value.toolUseId == "" then None else Some(best.value.toolUseId)
  }

  lemma SameVerdict(d: Derived, e: Derived, sign: Signer, files: seq<TranscriptFile>, authoritative: set<Session>,
                    root: Hash)
    requires SameButStamps(d, e) && root in d.nodes && root in d.byHash
    ensures root in e.nodes && root in e.byHash && ChainUnder(d, root) == ChainUnder(e, root)
    ensures Verdict(d, sign, files, authoritative, root) == Verdict(e, sign, files, authoritative, root)
    ensures forall stats ::
              ReconcileRoot(d, sign, files, authoritative, root, stats).1 == ReconcileRoot(e, sign, files, authoritative, root, stats).1
  {
    hide Overlap, Heaviest, Joined, ByIdentity, For, WalkFrom;
    assert SameNode(d.byHash[root], e.byHash[root]);
    SameWalk(d, e, [root], []);
    var chain, candidates := ChainUnder(d, root), For(d.byHash[root].session, files);
    SameScores(d, e, sign, chain, candidates);
    SameHeaviest(d, e, sign, chain, candidates, |candidates|);
    var heavy := Heaviest(d, sign, chain, candidates, |candidates|);
    if heavy.Some? { assert Overlap(d, sign, chain, heavy.value) == Overlap(e, sign, chain, heavy.value); }
    assert Best(d, sign, root, chain, candidates) == Best(e, sign, root, chain, candidates);
  }

  lemma {:induction false} StampedMeans(byHash: map<Hash, Kept>, chain: seq<Hash>, id: string, h: Hash)
    requires h in byHash
    ensures h in Stamped(byHash, chain, id)
    ensures Stamped(byHash, chain, id)[h] == if h in chain then byHash[h].(node := byHash[h].node.(forkStamp := id)) else byHash[h]
  {
    if chain != [] {
      StampedMeans(byHash, chain[..|chain| - 1], id, h);
      assert chain == chain[..|chain| - 1] + [chain[|chain| - 1]];
    }
  }

  /** What a node's stamp is once the roots in done have been reconciled. */
  ghost function StampAfter(d: Derived, sign: Signer, files: seq<TranscriptFile>, authoritative: set<Session>,
                            done: seq<Hash>, h: Hash): string
    requires h in d.byHash && forall r | r in done :: r in d.nodes && r in d.byHash
  {
    if OnMainPath(d, h) && RootOf(h) in done && Verdict(d, sign, files, authoritative, RootOf(h)).Some?
    then Verdict(d, sign, files, authoritative, RootOf(h)).value
    else d.byHash[h].node.forkStamp
  }

  ghost predicate StampedAs(d: Derived, e: Derived, sign: Signer, files: seq<TranscriptFile>,
                            authoritative: set<Session>, done: seq<Hash>)
    requires forall r | r in done :: r in d.nodes && r in d.byHash
  {
    && SameButStamps(d, e)
    && forall h | h in d.byHash :: e.byHash[h].node.forkStamp == StampAfter(d, sign, files, authoritative, done, h)
  }

  lemma RootsAreKept(d: Derived)
    requires Filed(d)
    ensures forall r | r in Roots(d) :: r in d.nodes && r in d.byHash
  {
    forall r | r in Roots(d) ensures r in d.nodes && r in d.byHash { RootIsInTree(d, r); }
  }

  lemma RootStampsItsTree(d: Derived, e: Derived, sign: Signer, files: seq<TranscriptFile>, authoritative: set<Session>,
                          done: seq<Hash>, root: Hash, stats: ChainStats)
    requires forall r | r in done + [root] :: r in d.nodes && r in d.byHash
    requires root in Roots(d) && root !in done && StampedAs(d, e, sign, files, authoritative, done)
    requires root in e.nodes && root in e.byHash
    ensures StampedAs(d, ReconcileRoot(e, sign, files, authoritative, root, stats).0, sign, files, authoritative, done + [root])
  {
    hide Verdict, ChainUnder, OnMainPath, RootOf;
    var r := ReconcileRoot(e, sign, files, authoritative, root, stats).0;
    SameVerdict(d, e, sign, files, authoritative, root);
    WalkIsTheTree(d, root);
    var chain, v := ChainUnder(d, root), Verdict(d, sign, files, authoritative, root);
    assert r == if v.None? then e else e.(byHash := Stamped(e.byHash, chain, v.value)) by {
      VerdictDecides(e, sign, files, authoritative, root, stats);
    }
    if v.Some? { StampedKeys(e.byHash, chain); }
    forall h | h in d.byHash
      ensures SameNode(d.byHash[h], r.byHash[h])
      ensures r.byHash[h].node.forkStamp == StampAfter(d, sign, files, authoritative, done + [root], h)
    {
      assert SameNode(d.byHash[h], e.byHash[h]);
      if v.Some? { StampedMeans(e.byHash, chain, v.value, h); }
      assert h in chain <==> InTree(d, h, root);
    }
  }

  lemma VerdictDecides(d: Derived, sign: Signer, files: seq<TranscriptFile>, authoritative: set<Session>, root: Hash,
                       stats: ChainStats)
    requires root in d.nodes && root in d.byHash
    ensures var v := Verdict(d, sign, files, authoritative, root);
            ReconcileRoot(d, sign, files, authoritative, root, stats).0
            == if v.None? then d else d.(byHash := Stamped(d.byHash, ChainUnder(d, root), v.value))
  {
    hide Best, ChainUnder, For, Joined, Stamped;
  }

  lemma NodeIsNew(d: Derived, n: nat)
    requires Filed(d) && 0 < n <= |d.nodes|
    ensures d.nodes[n - 1] !in d.nodes[..n - 1]
  {
  }

  lemma RootsSnoc(d: Derived, n: nat)
    requires Filed(d) && 0 < n <= |d.nodes|
    ensures RootsIn(d, n) == RootsIn(d, n - 1) || RootsIn(d, n) == RootsIn(d, n - 1) + [d.nodes[n - 1]]
    ensures d.nodes[n - 1] !in RootsIn(d, n - 1)
  {
    hide IsMain;
    NodeIsNew(d, n);
  }

  lemma {:induction false} RootsDistinct(d: Derived, n: nat)
    requires Filed(d) && n <= |d.nodes|
    ensures NoRepeats(RootsIn(d, n))
  {
    hide IsMain, Filed, RootsIn;
    if n == 0 {
      assert RootsIn(d, 0) == [] by { NoRoots(d); }
    } else {
      RootsDistinct(d, n - 1);
      RootsSnoc(d, n);
    }
  }

  lemma NoRoots(d: Derived)
    ensures RootsIn(d, 0) == []
  {
  }

  lemma NextRootIsNew(d: Derived, n: nat)
    requires Filed(d) && 0 < n <= |Roots(d)|
    ensures Roots(d)[n - 1] !in Roots(d)[..n - 1]
  {
    RootsDistinct(d, |d.nodes|);
  }

  lemma NothingStamped(d: Derived, sign: Signer, files: seq<TranscriptFile>, authoritative: set<Session>)
    ensures StampedAs(d, d, sign, files, authoritative, [])
  {
    hide Verdict;
  }

  /** The outcome in closed form: a node on a main path carries its root's verdict, whatever
      the order of the roots; every other node keeps the stamp it had. */
  lemma {:induction false} StampsFollowTheRoot(d: Derived, sign: Signer, files: seq<TranscriptFile>,
                                               authoritative: set<Session>, n: nat)
    requires Filed(d) && n <= |Roots(d)|
    ensures forall r | r in Roots(d)[..n] :: r in d.nodes && r in d.byHash
    ensures StampedAs(d, ReconcileRoots(d, sign, files, authoritative, n).0, sign, files, authoritative, Roots(d)[..n])
  {
    hide ReconcileRoot, Roots, Filed, StampedAs;
    RootsAreKept(d);
    if n == 0 {
      NothingStamped(d, sign, files, authoritative);
    } else {
      var done, root := Roots(d)[..n - 1], Roots(d)[n - 1];
      StampsFollowTheRoot(d, sign, files, authoritative, n - 1);
      NextRootIsNew(d, n);
      var before := ReconcileRoots(d, sign, files, authoritative, n - 1);
      assert root in Roots(d);
      RootStampsItsTree(d, before.0, sign, files, authoritative, done, root, before.1);
      assert Roots(d)[..n] == done + [root];
    }
  }

  lemma OnlyStampsChange(d: Derived, sign: Signer, files: seq<TranscriptFile>, authoritative: set<Session>, n: nat)
    requires Filed(d) && n <= |Roots(d)|
    ensures SameButStamps(d, ReconcileRoots(d, sign, files, authoritative, n).0)
  {
    hide ReconcileRoots, SameButStamps, Verdict;
    StampsFollowTheRoot(d, sign, files, authoritative, n);
  }

  lemma {:induction false} SameCounts(d: Derived, e: Derived, sign: Signer, files: seq<TranscriptFile>,
                                      authoritative: set<Session>, n: nat)
    requires Filed(d) && Filed(e) && SameButStamps(d, e) && n <= |Roots(d)|
    ensures Roots(e) == Roots(d)
    ensures ReconcileRoots(e, sign, files, authoritative, n).1 == ReconcileRoots(d, sign, files, authoritative, n).1
  {
    hide ReconcileRoot, Roots, StampAfter, SameButStamps, Filed;
    RootsAreKept(d);
    SameRoots(d, e);
    if n > 0 {
      SameCounts(d, e, sign, files, authoritative, n - 1);
      OnlyStampsChange(d, sign, files, authoritative, n - 1);
      OnlyStampsChange(e, sign, files, authoritative, n - 1);
      var x, y := ReconcileRoots(d, sign, files, authoritative, n - 1), ReconcileRoots(e, sign, files, authoritative, n - 1);
      var root := Roots(d)[n - 1];
      assert root in Roots(d);
      SameTwice(d, e, x.0, y.0);
      assert root in x.0.nodes && root in x.0.byHash;
      SameVerdict(x.0, y.0, sign, files, authoritative, root);
      assert ReconcileRoot(x.0, sign, files, authoritative, root, x.1).1 == ReconcileRoot(y.0, sign, files, authoritative, root, x.1).1;
    }
  }

  lemma SameRoots(d: Derived, e: Derived)
    requires SameButStamps(d, e)
    ensures Roots(d) == Roots(e)
  {
    hide SameButStamps;
    SameChildren(d, e, H(Digest(User, []), None), |d.nodes|);
  }

  lemma SameTwice(d: Derived, e: Derived, x: Derived, y: Derived)
    requires SameButStamps(d, e) && SameButStamps(d, x) && SameButStamps(e, y)
    ensures SameButStamps(x, y)
  {
    forall h | h in x.byHash ensures SameNode(x.byHash[h], y.byHash[h]) {
      assert SameNode(d.byHash[h], e.byHash[h]) && SameNode(d.byHash[h], x.byHash[h]) && SameNode(e.byHash[h], y.byHash[h]);
    }
  }

  lemma StampsKeepFiling(d: Derived, e: Derived)
    requires Filed(d) && SameButStamps(d, e)
    ensures Filed(e)
  {
    forall h | h in e.nodes ensures h in e.byHash && e.byHash[h].node.hash == h {
      assert SameNode(d.byHash[h], e.byHash[h]);
    }
  }

  /** Reconciling a reconciled set changes no stamp and reports the same counts. */
  lemma ReconcilingTwiceIsOnce(d: Derived, sign: Signer, files: seq<TranscriptFile>, authoritative: set<Session>)
    requires Filed(d)
    ensures var once := ReconcileRoots(d, sign, files, authoritative, |Roots(d)|);
            && Filed(once.0) && Roots(once.0) == Roots(d)
            && ReconcileRoots(once.0, sign, files, authoritative, |Roots(d)|) == once
  {
    hide ReconcileRoots, Roots, RootOf, StampAfter, SameNode;
    var n := |Roots(d)|;
    var once := ReconcileRoots(d, sign, files, authoritative, n);
    var e := once.0;
    StampsFollowTheRoot(d, sign, files, authoritative, n);
    StampsKeepFiling(d, e);
    SameCounts(d, e, sign, files, authoritative, n);
    var twice := ReconcileRoots(e, sign, files, authoritative, n);
    StampsFollowTheRoot(e, sign, files, authoritative, n);
    forall h | h in e.byHash ensures twice.0.byHash[h] == e.byHash[h] {
      SecondStamp(d, e, twice.0, sign, files, authoritative, Roots(d)[..n], h);
    }
    assert twice.0.byHash == e.byHash;
  }

  lemma SecondStamp(d: Derived, e: Derived, f: Derived, sign: Signer, files: seq<TranscriptFile>,
                    authoritative: set<Session>,
                    done: seq<Hash>, h: Hash)
    requires forall r | r in done :: r in d.nodes && r in d.byHash && r in e.nodes && r in e.byHash
    requires StampedAs(d, e, sign, files, authoritative, done) && StampedAs(e, f, sign, files, authoritative, done)
    requires h in e.byHash
    ensures f.byHash[h] == e.byHash[h]
  {
    hide Verdict;
    assert SameNode(d.byHash[h], e.byHash[h]) && SameNode(e.byHash[h], f.byHash[h]);
    SamePath(d, e, h);
    if RootOf(h) in done { SameVerdict(d, e, sign, files, authoritative, RootOf(h)); }
  }

  lemma {:induction false} SamePath(d: Derived, e: Derived, h: Hash)
    requires SameButStamps(d, e)
    ensures OnMainPath(d, h) <==> OnMainPath(e, h)
    decreases h
  {
    if h in d.byHash { assert SameNode(d.byHash[h], e.byHash[h]); }
    if h.parent.Some? { SamePath(d, e, h.parent.value); }
  }

  // ---------------------------------------------------------------- the whole pass

  lemma {:induction false} RootsIgnoreSources(d: Derived, e: Derived, sign: Signer, files: seq<TranscriptFile>,
                                              authoritative: set<Session>, n: nat)
    requires Filed(d) && Filed(e) && e.nodes == d.nodes && e.byHash == d.byHash && n <= |Roots(d)|
    ensures Roots(e) == Roots(d)
    ensures var x, y := ReconcileRoots(d, sign, files, authoritative, n), ReconcileRoots(e, sign, files, authoritative, n);
            x.0.byHash == y.0.byHash && x.1 == y.1
  {
    hide ReconcileRoot, Roots, Verdict, Filed;
    ShareNodes(d, e);
    SameRoots(d, e);
    if n > 0 {
      RootsIgnoreSources(d, e, sign, files, authoritative, n - 1);
      var x, y := ReconcileRoots(d, sign, files, authoritative, n - 1), ReconcileRoots(e, sign, files, authoritative, n - 1);
      var root := Roots(d)[n - 1];
      RootsAreKept(d);
      assert root in Roots(d) && root in x.0.byHash;
      ShareNodes(x.0, y.0);
      SameVerdict(x.0, y.0, sign, files, authoritative, root);
      VerdictDecides(x.0, sign, files, authoritative, root, x.1);
      VerdictDecides(y.0, sign, files, authoritative, root, y.1);
      assert ReconcileRoot(x.0, sign, files, authoritative, root, x.1).1 == ReconcileRoot(y.0, sign, files, authoritative, root, x.1).1;
    }
  }

  lemma ShareNodes(d: Derived, e: Derived)
    requires e.nodes == d.nodes && e.byHash == d.byHash
    ensures SameButStamps(d, e)
  {
  }
}
