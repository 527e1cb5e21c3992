/** Which transcript file a conversation joins, and what that writes and counts, read off the
    nodes and the files: identity first, then the number of signed blocks. */
module ReconcileJoins {
  import opened Llm
  import opened DeriveModel
  import opened DeriverModel
  import opened ReconcileModel
  import opened ForestWalk

  // ---------------------------------------------------------------- the reference

  /** File j may be joined by chains of the session. */
  ghost predicate CandidateAt(files: seq<TranscriptFile>, session: Session, j: nat) {
    j < |files| && files[j].started && files[j].session == session
  }

  /** The file holds the block's signature, if it has one. */
  ghost predicate Bears(sign: Signer, b: ContentBlock, f: TranscriptFile)
    ensures Bears(sign, b, f) <==> Signed(sign, b, f)
  {
    sign(b) in f.signatures - {""}
  }

  /** The blocks under a root that a file signs. */
  ghost function Hits(d: Derived, sign: Signer, root: Hash, f: TranscriptFile): set<(Hash, nat)> {
    set h, i: nat | h in d.nodes && i < |Content(d, h)| && InTree(d, h, root) && Bears(sign, Content(d, h)[i], f) :: (h, i)
  }

  ghost predicate Named(d: Derived, files: seq<TranscriptFile>, root: Hash, j: nat)
    requires root in d.byHash
  {
    && CandidateAt(files, d.byHash[root].session, j)
    && d.byHash[root].node.thread != "" && files[j].agentId == d.byHash[root].node.thread
  }

  ghost predicate Overlaps(d: Derived, sign: Signer, files: seq<TranscriptFile>, root: Hash, j: nat)
    requires root in d.byHash
  {
    CandidateAt(files, d.byHash[root].session, j) && Hits(d, sign, root, files[j]) != {}
  }

  /** The file a root joins: the first whose agent is the root's capture-time thread; without
      one, the first of those signing most blocks; none where nothing is signed. */
  ghost predicate Joins(d: Derived, sign: Signer, files: seq<TranscriptFile>, root: Hash, pick: Option<nat>)
    requires root in d.byHash
  {
    if exists j :: Named(d, files, root, j) then
      pick.Some? && Named(d, files, root, pick.value) && forall k | 0 <= k < pick.value :: !Named(d, files, root, k)
    else if exists j :: Overlaps(d, sign, files, root, j) then
      && pick.Some? && Overlaps(d, sign, files, root, pick.value)
      && forall k: nat | CandidateAt(files, d.byHash[root].session, k) && k != pick.value ::
           && |Hits(d, sign, root, files[k])| <= |Hits(d, sign, root, files[pick.value])|
           && (k < pick.value ==> |Hits(d, sign, root, files[k])| < |Hits(d, sign, root, files[pick.value])|)
    else pick == None
  }

  /** A session whose conversation came over the wire and by no transcript. */
  ghost predicate WireOnly(sources: seq<Source>, session: Session) {
    && (exists s :: s in sources && s.kind == Main && s.wire && s.session == session)
    && forall s | s in sources && s.kind == Main && s.session == session :: s.wire
  }

  /** The fork edge a joined file gives. */
  ghost predicate Forks(files: seq<TranscriptFile>, pick: Option<nat>) {
    pick.Some? && pick.value < |files| && files[pick.value].agentId != "" && files[pick.value].toolUseId != ""
  }

  // ---------------------------------------------------------------- candidates

  lemma CandidatesSnoc(session: Session, files: seq<TranscriptFile>)
    requires files != []
    ensures var n := |files| - 1;
            forall j: nat :: CandidateAt(files, session, j) <==>
                               CandidateAt(files[..n], session, j) || (j == n && files[n].started && files[n].session == session)
  {
    var n := |files| - 1;
    assert forall j | 0 <= j < n :: files[..n][j] == files[j];
  }

  /** Where the candidates of a session stand among the files. */
  ghost function Spots(session: Session, files: seq<TranscriptFile>): (r: seq<nat>)
    ensures |r| == |For(session, files)|
    ensures forall i | 0 <= i < |r| :: r[i] < |files| && files[r[i]] == For(session, files)[i]
    ensures forall i, j | 0 <= i < j < |r| :: r[i] < r[j]
    ensures forall j :: j in r <==> CandidateAt(files, session, j)
  {
    if files == [] then []
    else
      var n := |files| - 1;
      CandidatesSnoc(session, files);
      hide CandidateAt;
      Spots(session, files[..n]) + (if files[n].started && files[n].session == session then [n] else [])
  }

  // ---------------------------------------------------------------- the score is a cardinality

  ghost function SignedBelow(sign: Signer, blocks: seq<ContentBlock>, n: nat, f: TranscriptFile): set<nat>
    requires n <= |blocks|
  {
    set i: nat | i < n && Signed(sign, blocks[i], f)
  }

  lemma {:induction false} BlocksCount(sign: Signer, blocks: seq<ContentBlock>, n: nat, f: TranscriptFile)
    requires n <= |blocks|
    ensures BlockOverlap(sign, blocks, n, f) == |SignedBelow(sign, blocks, n, f)|
  {
    if n == 0 {
      assert SignedBelow(sign, blocks, 0, f) == {};
    } else {
      BlocksCount(sign, blocks, n - 1, f);
      if Signed(sign, blocks[n - 1], f) {
        assert SignedBelow(sign, blocks, n, f) == SignedBelow(sign, blocks, n - 1, f) + {n - 1};
      } else {
        assert SignedBelow(sign, blocks, n, f) == SignedBelow(sign, blocks, n - 1, f);
      }
    }
  }

  ghost function Paired(h: Hash, xs: set<nat>): set<(Hash, nat)> {
    set i | i in xs :: (h, i)
  }

  lemma {:induction false} PairedSize(h: Hash, xs: set<nat>)
    ensures |Paired(h, xs)| == |xs|
    decreases |xs|
  {
    if xs == {} {
      assert Paired(h, xs) == {};
    } else {
      var x :| x in xs;
      PairedSize(h, xs - {x});
      assert Paired(h, xs) == Paired(h, xs - {x}) + {(h, x)};
      assert (h, x) !in Paired(h, xs - {x});
    }
  }

  ghost function HitsIn(d: Derived, sign: Signer, chain: seq<Hash>, f: TranscriptFile): set<(Hash, nat)> {
    set h, i: nat | h in chain && i < |Content(d, h)| && Signed(sign, Content(d, h)[i], f) :: (h, i)
  }

  lemma {:induction false} ChainCount(d: Derived, sign: Signer, chain: seq<Hash>, f: TranscriptFile)
    requires NoRepeats(chain)
    ensures Overlap(d, sign, chain, f) == |HitsIn(d, sign, chain, f)|
  {
    hide BlockOverlap, Content, Signed, HitsIn, SignedBelow, Paired, Overlap;
    if chain == [] {
      NoHits(d, sign, f);
    } else {
      var rest, h := chain[..|chain| - 1], chain[|chain| - 1];
      ChainCount(d, sign, rest, f);
      var blocks := Content(d, h);
      BlocksCount(sign, blocks, |blocks|, f);
      PairedSize(h, SignedBelow(sign, blocks, |blocks|, f));
      assert chain == rest + [h] && h !in rest;
      HitsSnoc(d, sign, rest, h, f);
      OverlapSnoc(d, sign, rest, h, f);
    }
  }

  lemma NoHits(d: Derived, sign: Signer, f: TranscriptFile)
    ensures Overlap(d, sign, [], f) == 0 && HitsIn(d, sign, [], f) == {}
  {
  }

  lemma OverlapSnoc(d: Derived, sign: Signer, rest: seq<Hash>, h: Hash, f: TranscriptFile)
    ensures Overlap(d, sign, rest + [h], f) == Overlap(d, sign, rest, f) + BlockOverlap(sign, Content(d, h), |Content(d, h)|, f)
  {
    assert (rest + [h])[..|rest|] == rest;
  }

  lemma HitsSnoc(d: Derived, sign: Signer, rest: seq<Hash>, h: Hash, f: TranscriptFile)
    requires h !in rest
    ensures var here := Paired(h, SignedBelow(sign, Content(d, h), |Content(d, h)|, f));
            HitsIn(d, sign, rest + [h], f) == HitsIn(d, sign, rest, f) + here && HitsIn(d, sign, rest, f) !! here
  {
    hide Content, Signed;
    var here := Paired(h, SignedBelow(sign, Content(d, h), |Content(d, h)|, f));
    forall p ensures p in HitsIn(d, sign, rest + [h], f) <==> p in HitsIn(d, sign, rest, f) || p in here {
      assert p == (p.0, p.1);
    }
  }

  lemma OverlapIsHits(d: Derived, sign: Signer, root: Hash, f: TranscriptFile)
    requires root in Roots(d) && root in d.nodes
    ensures Overlap(d, sign, ChainUnder(d, root), f) == |Hits(d, sign, root, f)|
  {
    hide ChainUnder, Overlap, InTree, Content, Signed;
    WalkIsTheTree(d, root);
    var chain := ChainUnder(d, root);
    ChainCount(d, sign, chain, f);
    forall h | h in chain ensures h in d.nodes { InTreeIsNode(d, h, root); }
    assert HitsIn(d, sign, chain, f) == Hits(d, sign, root, f);
  }

  lemma InTreeIsNode(d: Derived, h: Hash, root: Hash)
    requires InTree(d, h, root)
    ensures h in d.nodes && h in d.byHash
  {
  }

  // ---------------------------------------------------------------- the choice

  lemma {:induction false} IdentityIsFirst(thread: string, candidates: seq<TranscriptFile>) returns (i: nat)
    requires ByIdentity(thread, candidates).Some?
    ensures i < |candidates| && candidates[i] == ByIdentity(thread, candidates).value && candidates[i].agentId == thread
    ensures forall k | 0 <= k < i :: candidates[k].agentId != thread
  {
    if candidates[0].agentId == thread {
      i := 0;
    } else {
      var j := IdentityIsFirst(thread, candidates[1..]);
      i := j + 1;
      forall k | 0 <= k < i ensures candidates[k].agentId != thread {
        if k > 0 { assert candidates[k] == candidates[1..][k - 1]; }
      }
    }
  }

  lemma {:induction false} HeaviestIsFirst(d: Derived, sign: Signer, chain: seq<Hash>, candidates: seq<TranscriptFile>, n: nat)
    returns (i: nat)
    requires 0 < n <= |candidates|
    ensures i < n && candidates[i] == Heaviest(d, sign, chain, candidates, n).value
    ensures forall k | 0 <= k < n :: Overlap(d, sign, chain, candidates[k]) <= Overlap(d, sign, chain, candidates[i])
    ensures forall k | 0 <= k < i :: Overlap(d, sign, chain, candidates[k]) < Overlap(d, sign, chain, candidates[i])
  {
    hide Overlap;
    if n == 1 {
      i := 0;
    } else {
      var best := Heaviest(d, sign, chain, candidates, n - 1);
      var j := HeaviestIsFirst(d, sign, chain, candidates, n - 1);
      i := if Overlap(d, sign, chain, candidates[n - 1]) > Overlap(d, sign, chain, best.value) then n - 1 else j;
    }
  }

  ghost function FileAt(files: seq<TranscriptFile>, pick: Option<nat>): Option<TranscriptFile> {
    if pick.Some? && pick.value < |files| then Some(files[pick.value]) else None
  }

  lemma SpotOf(files: seq<TranscriptFile>, session: Session, j: nat) returns (m: nat)
    requires CandidateAt(files, session, j)
    ensures m < |Spots(session, files)| && Spots(session, files)[m] == j && For(session, files)[m] == files[j]
  {
    hide Spots, For;
    assert j in Spots(session, files);
    m :| 0 <= m < |Spots(session, files)| && Spots(session, files)[m] == j;
  }

  lemma NoIdentity(d: Derived, files: seq<TranscriptFile>, root: Hash, j: nat)
    requires root in d.byHash && ByIdentity(d.byHash[root].node.thread, For(d.byHash[root].session, files)).None?
    ensures !Named(d, files, root, j)
  {
    hide ByIdentity, For;
    if Named(d, files, root, j) {
      var m := SpotOf(files, d.byHash[root].session, j);
    }
  }

  /** The model's choice is the reference's. */
  lemma BestJoins(d: Derived, sign: Signer, files: seq<TranscriptFile>, root: Hash) returns (pick: Option<nat>)
    requires root in Roots(d) && root in d.nodes && root in d.byHash
    ensures Joins(d, sign, files, root, pick)
    ensures Best(d, sign, root, ChainUnder(d, root), For(d.byHash[root].session, files)) == FileAt(files, pick)
    ensures pick.Some? ==> pick.value < |files|
  {
    hide ChainUnder, Overlap, Hits, Heaviest, ByIdentity, For, Spots, Named, Overlaps, Roots;
    if ByIdentity(d.byHash[root].node.thread, For(d.byHash[root].session, files)).Some? {
      pick := IdentityJoins(d, files, root);
    } else {
      forall j: nat ensures !Named(d, files, root, j) { NoIdentity(d, files, root, j); }
      pick := OverlapJoins(d, sign, files, root);
    }
  }

  lemma IdentityJoins(d: Derived, files: seq<TranscriptFile>, root: Hash) returns (pick: Option<nat>)
    requires root in d.byHash && ByIdentity(d.byHash[root].node.thread, For(d.byHash[root].session, files)).Some?
    ensures pick.Some? && pick.value < |files| && Named(d, files, root, pick.value)
    ensures forall k | 0 <= k < pick.value :: !Named(d, files, root, k)
    ensures ByIdentity(d.byHash[root].node.thread, For(d.byHash[root].session, files)) == Some(files[pick.value])
  {
    hide ByIdentity, For, Spots;
    var s, thread := d.byHash[root].session, d.byHash[root].node.thread;
    var spots := Spots(s, files);
    var i := IdentityIsFirst(thread, For(s, files));
    pick := Some(spots[i]);
    assert spots[i] in spots;
    forall k | 0 <= k < spots[i] ensures !Named(d, files, root, k) {
      if Named(d, files, root, k) { var m := SpotOf(files, s, k); }
    }
  }

  lemma OverlapJoins(d: Derived, sign: Signer, files: seq<TranscriptFile>, root: Hash) returns (pick: Option<nat>)
    requires root in Roots(d) && root in d.nodes && root in d.byHash
    requires ByIdentity(d.byHash[root].node.thread, For(d.byHash[root].session, files)).None?
    requires forall j: nat :: !Named(d, files, root, j)
    ensures Joins(d, sign, files, root, pick)
    ensures Best(d, sign, root, ChainUnder(d, root), For(d.byHash[root].session, files)) == FileAt(files, pick)
    ensures pick.Some? ==> pick.value < |files|
  {
    hide ChainUnder, Overlap, Hits, Heaviest, ByIdentity, For, Named, Spots, Roots;
    var s, chain := d.byHash[root].session, ChainUnder(d, root);
    var candidates := For(s, files);
    if candidates == [] {
      pick := None;
      forall j: nat ensures !Overlaps(d, sign, files, root, j) {
        if CandidateAt(files, s, j) { var m := SpotOf(files, s, j); }
      }
    } else {
      var i := HeaviestIsFirst(d, sign, chain, candidates, |candidates|);
      pick := if Overlap(d, sign, chain, candidates[i]) == 0 then None else Some(Spots(s, files)[i]);
      forall k: nat | CandidateAt(files, s, k) && k != Spots(s, files)[i]
        ensures |Hits(d, sign, root, files[k])| <= Overlap(d, sign, chain, candidates[i])
        ensures k < Spots(s, files)[i] ==> |Hits(d, sign, root, files[k])| < Overlap(d, sign, chain, candidates[i])
      {
        var m := SpotOf(files, s, k);
        OverlapIsHits(d, sign, root, files[k]);
        assert m < i ==> Spots(s, files)[m] < Spots(s, files)[i];
        assert i < m ==> Spots(s, files)[i] < Spots(s, files)[m];
      }
      OverlapIsHits(d, sign, root, candidates[i]);
      assert CandidateAt(files, s, Spots(s, files)[i]) by { assert Spots(s, files)[i] in Spots(s, files); }
      HeaviestJoins(d, sign, files, root, Spots(s, files)[i]);
    }
  }

  lemma HeaviestJoins(d: Derived, sign: Signer, files: seq<TranscriptFile>, root: Hash, top: nat)
    requires root in d.byHash && CandidateAt(files, d.byHash[root].session, top) && forall j: nat :: !Named(d, files, root, j)
    requires forall k: nat | CandidateAt(files, d.byHash[root].session, k) && k != top ::
               && |Hits(d, sign, root, files[k])| <= |Hits(d, sign, root, files[top])|
               && (k < top ==> |Hits(d, sign, root, files[k])| < |Hits(d, sign, root, files[top])|)
    ensures Joins(d, sign, files, root, if Hits(d, sign, root, files[top]) == {} then None else Some(top))
  {
    hide Hits, Named;
    if Hits(d, sign, root, files[top]) != {} { assert Overlaps(d, sign, files, root, top); }
  }

  // ---------------------------------------------------------------- what is stamped

  lemma AuthorityMeans(sources: seq<Source>, session: Session)
    ensures session in Authoritative(sources) <==> WireOnly(sources, session)
  {
  }

  /** The stamp a joined conversation leaves on its nodes. */
  ghost predicate StampDecided(d: Derived, sign: Signer, files: seq<TranscriptFile>, h: Hash, before: string, after: string)
    requires h in d.byHash
  {
    if OnMainPath(d, h) && RootOf(h) in d.byHash && WireOnly(d.sources, d.byHash[RootOf(h)].session) then
      exists pick: Option<nat> :: Joins(d, sign, files, RootOf(h), pick)
                     && after == if Forks(files, pick) then files[pick.value].toolUseId else before
    else after == before
  }

  lemma {:induction false} RootIsRoot(d: Derived, h: Hash)
    requires Filed(d) && OnMainPath(d, h)
    ensures RootOf(h) in Roots(d) && RootOf(h) in d.nodes && RootOf(h) in d.byHash
    decreases h
  {
    assert d.nodes[..|d.nodes|] == d.nodes;
    if h.parent.Some? { RootIsRoot(d, h.parent.value); }
  }

  lemma NoCandidates(d: Derived, sign: Signer, files: seq<TranscriptFile>, root: Hash)
    requires root in d.byHash && For(d.byHash[root].session, files) == []
    ensures Joins(d, sign, files, root, None)
  {
    var s := d.byHash[root].session;
    assert Spots(s, files) == [];
    assert forall j: nat :: j !in Spots(s, files);
  }

  lemma VerdictStamps(d: Derived, sign: Signer, files: seq<TranscriptFile>, root: Hash) returns (pick: Option<nat>)
    requires root in Roots(d) && root in d.nodes && root in d.byHash && WireOnly(d.sources, d.byHash[root].session)
    ensures Joins(d, sign, files, root, pick)
    ensures Verdict(d, sign, files, Authoritative(d.sources), root)
         == if Forks(files, pick) then Some(files[pick.value].toolUseId) else None
  {
    hide ChainUnder, Best, Joins, For, Roots;
    AuthorityMeans(d.sources, d.byHash[root].session);
    if For(d.byHash[root].session, files) == [] {
      pick := None;
      NoCandidates(d, sign, files, root);
    } else {
      pick := BestJoins(d, sign, files, root);
    }
  }

  /** Every node's fork stamp after the chains are reconciled. */
  lemma EveryStampIsDecided(d: Derived, sign: Signer, files: seq<TranscriptFile>, h: Hash)
    requires Filed(d) && h in d.byHash
    ensures var e := ReconcileRoots(d, sign, files, Authoritative(d.sources), |Roots(d)|).0;
            h in e.byHash && StampDecided(d, sign, files, h, d.byHash[h].node.forkStamp, e.byHash[h].node.forkStamp)
  {
    hide ReconcileRoots, Verdict, Joins, WireOnly, Roots, Filed;
    var authority := Authoritative(d.sources);
    RootsAreKept(d);
    StampsFollowTheRoot(d, sign, files, authority, |Roots(d)|);
    assert Roots(d)[..|Roots(d)|] == Roots(d);
    if OnMainPath(d, h) {
      var root := RootOf(h);
      RootIsRoot(d, h);
      if WireOnly(d.sources, d.byHash[root].session) {
        var pick := VerdictStamps(d, sign, files, root);
      } else {
        AuthorityMeans(d.sources, d.byHash[root].session);
        NoVerdict(d, sign, files, authority, root);
      }
    }
  }

  lemma NoVerdict(d: Derived, sign: Signer, files: seq<TranscriptFile>, authority: set<Session>, root: Hash)
    requires root in d.nodes && root in d.byHash && d.byHash[root].session !in authority
    ensures Verdict(d, sign, files, authority, root) == None
  {
  }

  // ---------------------------------------------------------------- what is counted

  /** The conversation under a root is compared with files at all. */
  ghost predicate Compared(d: Derived, files: seq<TranscriptFile>, root: Hash) {
    && root in d.byHash && WireOnly(d.sources, d.byHash[root].session)
    && exists j: nat :: CandidateAt(files, d.byHash[root].session, j)
  }

  /** The node is one some candidate of its conversation signs a block of. */
  ghost predicate SignedNode(d: Derived, sign: Signer, files: seq<TranscriptFile>, h: Hash) {
    && RootOf(h) in d.byHash
    && exists j: nat, i :: CandidateAt(files, d.byHash[RootOf(h)].session, j) && 0 <= i < |Content(d, h)|
                      && Bears(sign, Content(d, h)[i], files[j])
  }

  /** The nodes of the compared conversations among these roots. */
  ghost function ComparedNodes(d: Derived, files: seq<TranscriptFile>, roots: seq<Hash>): set<Hash> {
    set h | h in d.nodes && OnMainPath(d, h) && RootOf(h) in roots && Compared(d, files, RootOf(h))
  }

  ghost predicate JoinsMain(d: Derived, sign: Signer, files: seq<TranscriptFile>, root: Hash) {
    Compared(d, files, root)
    && exists j: nat :: j < |files| && Joins(d, sign, files, root, Some(j)) && files[j].agentId == ""
  }

  ghost predicate JoinsFork(d: Derived, sign: Signer, files: seq<TranscriptFile>, root: Hash) {
    Compared(d, files, root) && exists pick: Option<nat> :: Joins(d, sign, files, root, pick) && Forks(files, pick)
  }

  /** The statistics, as cardinalities over nodes and roots. */
  ghost predicate Counted(d: Derived, sign: Signer, files: seq<TranscriptFile>, roots: seq<Hash>, stats: ChainStats) {
    && stats.total == |ComparedNodes(d, files, roots)|
    && stats.joined == |set h | h in ComparedNodes(d, files, roots) && SignedNode(d, sign, files, h)|
    && stats.mainJoined == |set r | r in roots && JoinsMain(d, sign, files, r)|
    && stats.forked == |set r | r in roots && JoinsFork(d, sign, files, r)|
  }

  lemma JoinsOnce(d: Derived, sign: Signer, files: seq<TranscriptFile>, root: Hash, p: Option<nat>, q: Option<nat>)
    requires root in d.byHash && Joins(d, sign, files, root, p) && Joins(d, sign, files, root, q)
    ensures p == q
  {
    hide Named, Hits;
  }

  lemma {:induction false} JoinedCount(d: Derived, sign: Signer, chain: seq<Hash>, candidates: seq<TranscriptFile>)
    requires NoRepeats(chain)
    ensures Joined(d, sign, chain, candidates) == |MatchedIn(d, sign, chain, candidates)|
  {
    hide Matched, MatchedIn;
    if chain == [] {
      NothingMatched(d, sign, candidates);
    } else {
      var rest, h := chain[..|chain| - 1], chain[|chain| - 1];
      JoinedCount(d, sign, rest, candidates);
      assert chain == rest + [h] && h !in rest;
      MatchedSnoc(d, sign, rest, h, candidates);
    }
  }

  ghost function MatchedIn(d: Derived, sign: Signer, chain: seq<Hash>, candidates: seq<TranscriptFile>): set<Hash> {
    set h | h in chain && Matched(d, sign, h, candidates)
  }

  lemma NothingMatched(d: Derived, sign: Signer, candidates: seq<TranscriptFile>)
    ensures MatchedIn(d, sign, [], candidates) == {}
  {
  }

  lemma MatchedSnoc(d: Derived, sign: Signer, rest: seq<Hash>, h: Hash, candidates: seq<TranscriptFile>)
    requires h !in rest
    ensures |MatchedIn(d, sign, rest + [h], candidates)|
         == |MatchedIn(d, sign, rest, candidates)| + if Matched(d, sign, h, candidates) then 1 else 0
  {
    hide Matched;
    assert MatchedIn(d, sign, rest + [h], candidates)
        == MatchedIn(d, sign, rest, candidates) + if Matched(d, sign, h, candidates) then {h} else {};
  }

  lemma {:induction false} ChainSize(chain: seq<Hash>)
    requires NoRepeats(chain)
    ensures |chain| == |set h | h in chain|
  {
    if chain == [] {
      assert (set h | h in chain) == {};
    } else {
      var rest, h := chain[..|chain| - 1], chain[|chain| - 1];
      ChainSize(rest);
      assert chain == rest + [h] && h !in rest;
      assert (set x | x in chain) == (set x | x in rest) + {h};
    }
  }

  lemma MatchedMeans(d: Derived, sign: Signer, files: seq<TranscriptFile>, root: Hash, h: Hash)
    requires root in d.byHash && RootOf(h) == root
    ensures Matched(d, sign, h, For(d.byHash[root].session, files)) <==> SignedNode(d, sign, files, h)
  {
    hide For, Spots;
    var s := d.byHash[root].session;
    var candidates, spots := For(s, files), Spots(s, files);
    if Matched(d, sign, h, candidates) {
      var b, f :| b in Content(d, h) && f in candidates && Signed(sign, b, f);
      var m :| 0 <= m < |candidates| && candidates[m] == f;
      assert spots[m] in spots && CandidateAt(files, s, spots[m]);
    }
    if SignedNode(d, sign, files, h) {
      var j: nat, i :| CandidateAt(files, s, j) && 0 <= i < |Content(d, h)| && Signed(sign, Content(d, h)[i], files[j]);
      var m := SpotOf(files, s, j);
      assert candidates[m] in candidates && Content(d, h)[i] in Content(d, h);
    }
  }

  lemma PartMeans(d: Derived, files: seq<TranscriptFile>, root: Hash)
    requires root in d.byHash
    ensures TakesPart(d, files, Authoritative(d.sources), root) <==> Compared(d, files, root)
  {
    hide For, Spots, WireOnly;
    var s := d.byHash[root].session;
    AuthorityMeans(d.sources, s);
    if For(s, files) != [] { assert Spots(s, files)[0] in Spots(s, files); }
    if exists j :: CandidateAt(files, s, j) {
      var j :| CandidateAt(files, s, j);
      var m := SpotOf(files, s, j);
    }
  }

  /** What one compared root adds to the four counts. */
  lemma RootCounts(d: Derived, sign: Signer, files: seq<TranscriptFile>, root: Hash, stats: ChainStats)
    requires root in Roots(d) && root in d.nodes && root in d.byHash && Compared(d, files, root)
    ensures var r := ReconcileRoot(d, sign, files, Authoritative(d.sources), root, stats).1;
            && r.total == stats.total + |set h | h in d.nodes && InTree(d, h, root)|
            && r.joined == stats.joined + |set h | h in d.nodes && InTree(d, h, root) && SignedNode(d, sign, files, h)|
            && r.mainJoined == stats.mainJoined + (if JoinsMain(d, sign, files, root) then 1 else 0)
            && r.forked == stats.forked + (if JoinsFork(d, sign, files, root) then 1 else 0)
  {
    hide ChainUnder, For, Best, Joined, InTree, Joins, Compared, SignedNode, Matched, Stamped, Roots;
    PartMeans(d, files, root);
    var chain, candidates := ChainUnder(d, root), For(d.byHash[root].session, files);
    WalkIsTheTree(d, root);
    ChainSize(chain);
    JoinedCount(d, sign, chain, candidates);
    forall h | InTree(d, h, root) ensures h in d.nodes && (Matched(d, sign, h, candidates) <==> SignedNode(d, sign, files, h)) {
      TreeRoot(d, h, root);
      MatchedMeans(d, sign, files, root, h);
    }
    assert (set h | h in chain) == set h | h in d.nodes && InTree(d, h, root);
    assert (set h | h in chain && Matched(d, sign, h, candidates))
        == set h | h in d.nodes && InTree(d, h, root) && SignedNode(d, sign, files, h);
    var pick := BestJoins(d, sign, files, root);
    forall q: Option<nat> | Joins(d, sign, files, root, q) ensures q == pick { JoinsOnce(d, sign, files, root, pick, q); }
  }

  lemma TreeRoot(d: Derived, h: Hash, root: Hash)
    requires InTree(d, h, root)
    ensures h in d.nodes && RootOf(h) == root
  {
  }

  lemma {:induction false} NodesSnoc(d: Derived, files: seq<TranscriptFile>, done: seq<Hash>, root: Hash)
    requires root !in done
    ensures ComparedNodes(d, files, done + [root])
         == ComparedNodes(d, files, done) + (if Compared(d, files, root) then set h | h in d.nodes && InTree(d, h, root) else {})
    ensures ComparedNodes(d, files, done) !! set h | h in d.nodes && InTree(d, h, root)
  {
    hide Compared, OnMainPath;
  }

  lemma CountedMore(d: Derived, sign: Signer, files: seq<TranscriptFile>, done: seq<Hash>, root: Hash, a: ChainStats, b: ChainStats)
    requires Counted(d, sign, files, done, a) && root !in done && Compared(d, files, root)
    requires b.total == a.total + |set h | h in d.nodes && InTree(d, h, root)|
    requires b.joined == a.joined + |set h | h in d.nodes && InTree(d, h, root) && SignedNode(d, sign, files, h)|
    requires b.mainJoined == a.mainJoined + (if JoinsMain(d, sign, files, root) then 1 else 0)
    requires b.forked == a.forked + (if JoinsFork(d, sign, files, root) then 1 else 0)
    ensures Counted(d, sign, files, done + [root], b)
  {
    hide InTree, SignedNode, JoinsMain, JoinsFork, ComparedNodes, Compared;
    NodesSnoc(d, files, done, root);
    var here := set h | h in d.nodes && InTree(d, h, root);
    var nodes := ComparedNodes(d, files, done);
    assert (set h | h in nodes + here && SignedNode(d, sign, files, h))
        == (set h | h in nodes && SignedNode(d, sign, files, h)) + (set h | h in here && SignedNode(d, sign, files, h));
    assert (set h | h in here && SignedNode(d, sign, files, h))
        == set h | h in d.nodes && InTree(d, h, root) && SignedNode(d, sign, files, h);
    RootsSets(d, sign, files, done, root);
  }

  lemma RootsSets(d: Derived, sign: Signer, files: seq<TranscriptFile>, done: seq<Hash>, root: Hash)
    ensures (set r | r in done + [root] && JoinsMain(d, sign, files, r))
         == (set r | r in done && JoinsMain(d, sign, files, r)) + (if JoinsMain(d, sign, files, root) then {root} else {})
    ensures (set r | r in done + [root] && JoinsFork(d, sign, files, r))
         == (set r | r in done && JoinsFork(d, sign, files, r)) + (if JoinsFork(d, sign, files, root) then {root} else {})
  {
    hide JoinsMain, JoinsFork;
  }

  lemma CountedSame(d: Derived, sign: Signer, files: seq<TranscriptFile>, done: seq<Hash>, root: Hash, stats: ChainStats)
    requires Counted(d, sign, files, done, stats) && root !in done && !Compared(d, files, root)
    ensures Counted(d, sign, files, done + [root], stats)
  {
    hide SignedNode, ComparedNodes, Compared;
    NodesSnoc(d, files, done, root);
    assert ComparedNodes(d, files, done) + {} == ComparedNodes(d, files, done);
    RootsSets(d, sign, files, done, root);
    assert !JoinsMain(d, sign, files, root) && !JoinsFork(d, sign, files, root);
  }

  lemma RootStepCounts(d: Derived, x: Derived, sign: Signer, files: seq<TranscriptFile>, done: seq<Hash>, root: Hash,
                       stats: ChainStats)
    requires root in Roots(d) && root in d.nodes && root in d.byHash && root !in done
    requires SameButStamps(d, x) && Counted(d, sign, files, done, stats)
    ensures root in x.nodes && root in x.byHash
    ensures Counted(d, sign, files, done + [root], ReconcileRoot(x, sign, files, Authoritative(d.sources), root, stats).1)
  {
    hide ReconcileRoot, Roots, Counted, Compared, JoinsMain, JoinsFork, SignedNode, InTree, SameButStamps, ChainUnder, Verdict;
    var authority := Authoritative(d.sources);
    SameVerdict(d, x, sign, files, authority, root);
    var r := ReconcileRoot(d, sign, files, authority, root, stats).1;
    assert r == ReconcileRoot(x, sign, files, authority, root, stats).1;
    if Compared(d, files, root) {
      RootCounts(d, sign, files, root, stats);
      CountedMore(d, sign, files, done, root, stats, r);
    } else {
      PartMeans(d, files, root);
      Uncompared(d, sign, files, authority, root, stats);
      CountedSame(d, sign, files, done, root, stats);
    }
  }

  lemma {:induction false} RootsCount(d: Derived, sign: Signer, files: seq<TranscriptFile>, n: nat)
    requires Filed(d) && n <= |Roots(d)|
    ensures Counted(d, sign, files, Roots(d)[..n], ReconcileRoots(d, sign, files, Authoritative(d.sources), n).1)
  {
    hide ReconcileRoot, Roots, Filed, Counted, SameButStamps;
    RootsAreKept(d);
    if n == 0 {
      NothingCounted(d, sign, files);
    } else {
      var done, root := Roots(d)[..n - 1], Roots(d)[n - 1];
      RootsCount(d, sign, files, n - 1);
      NextRootIsNew(d, n);
      OnlyStampsChange(d, sign, files, Authoritative(d.sources), n - 1);
      var before := ReconcileRoots(d, sign, files, Authoritative(d.sources), n - 1);
      assert root in Roots(d) && Roots(d)[..n] == done + [root];
      RootStepCounts(d, before.0, sign, files, done, root, before.1);
    }
  }

  lemma Uncompared(d: Derived, sign: Signer, files: seq<TranscriptFile>, authority: set<Session>, root: Hash, stats: ChainStats)
    requires root in d.nodes && root in d.byHash && !TakesPart(d, files, authority, root)
    ensures ReconcileRoot(d, sign, files, authority, root, stats) == (d, stats)
  {
  }

  lemma NothingCounted(d: Derived, sign: Signer, files: seq<TranscriptFile>)
    ensures Counted(d, sign, files, [], NO_CHAINS)
  {
    assert ComparedNodes(d, files, []) == {};
    assert (set h | h in ComparedNodes(d, files, []) && SignedNode(d, sign, files, h)) == {};
  }

  /** The reported statistics of the pass: conversation nodes compared and signed, chains that
      are a transcript's main thread, and chains stamped with a fork edge. */
  lemma CountsAreCardinalities(d: Derived, sign: Signer, files: seq<TranscriptFile>)
    requires Filed(d)
    ensures Counted(d, sign, files, Roots(d), ReconcileRoots(d, sign, files, Authoritative(d.sources), |Roots(d)|).1)
  {
    hide Roots, ReconcileRoots, Counted;
    RootsCount(d, sign, files, |Roots(d)|);
    assert Roots(d)[..|Roots(d)|] == Roots(d);
  }
}
