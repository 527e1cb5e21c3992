/** Joining wire chains to transcript files: the forest walk under each root, the choice of
    file, and the fork stamps. */
module ReconcileModel {
  import opened Llm
  import opened DeriveModel
  import opened DeriverModel

  /** started stands for SpawnEvidence: only started or unmarked rows are spawn evidence. */
  datatype TranscriptFile = TranscriptFile(
    session: Session,
    agentId: string,
    toolUseId: string,
    started: bool,
    signatures: set<string>)

  type Signer = ContentBlock -> string

  datatype ChainStats = ChainStats(total: nat, joined: nat, mainJoined: nat, forked: nat)

  const NO_CHAINS := ChainStats(0, 0, 0, 0)

  predicate Filed(d: Derived) {
    && (forall h | h in d.nodes :: h in d.byHash && d.byHash[h].node.hash == h)
    && (forall i, j | 0 <= i < j < |d.nodes| :: d.nodes[i] != d.nodes[j])
  }

  predicate IsMain(d: Derived, h: Hash) {
    h in d.byHash && d.byHash[h].node.kind == Main
  }

  /** The main nodes below n that hang off p. */
  function ChildrenIn(d: Derived, p: Hash, n: nat): (r: seq<Hash>)
    requires n <= |d.nodes|
    ensures forall h :: h in r <==> h in d.nodes[..n] && IsMain(d, h) && h.parent == Some(p)
  {
    if n == 0 then []
    else
      var h := d.nodes[n - 1];
      assert d.nodes[..n] == d.nodes[..n - 1] + [h];
      ChildrenIn(d, p, n - 1) + (if IsMain(d, h) && h.parent == Some(p) then [h] else [])
  }

  function Children(d: Derived, p: Hash): (r: seq<Hash>)
    ensures forall h :: h in r <==> h in d.nodes && IsMain(d, h) && h.parent == Some(p)
  {
    assert d.nodes[..|d.nodes|] == d.nodes;
    ChildrenIn(d, p, |d.nodes|)
  }

  function RootsIn(d: Derived, n: nat): (r: seq<Hash>)
    requires n <= |d.nodes|
    ensures forall h :: h in r <==> h in d.nodes[..n] && IsMain(d, h) && h.parent == None
  {
    if n == 0 then []
    else
      var h := d.nodes[n - 1];
      assert d.nodes[..n] == d.nodes[..n - 1] + [h];
      RootsIn(d, n - 1) + (if IsMain(d, h) && h.parent == None then [h] else [])
  }

  function Roots(d: Derived): seq<Hash> {
    RootsIn(d, |d.nodes|)
  }

  ghost function Unvisited(d: Derived, chain: seq<Hash>): set<Hash> {
    set h | h in d.nodes && h !in chain
  }

  /** The explicit-stack walk: chain is both the visit order and the seen set. */
  function WalkFrom(d: Derived, stack: seq<Hash>, chain: seq<Hash>): seq<Hash>
    requires forall h | h in stack :: h in d.nodes
    decreases Unvisited(d, chain), |stack|
  {
    if stack == [] then chain
    else
      var h, rest := stack[|stack| - 1], stack[..|stack| - 1];
      if h in chain then WalkFrom(d, rest, chain)
      else
        assert h in d.nodes && h in Unvisited(d, chain) && h !in Unvisited(d, chain + [h]);
        assert Unvisited(d, chain + [h]) < Unvisited(d, chain);
        WalkFrom(d, rest + Children(d, h), chain + [h])
  }

  function ChainUnder(d: Derived, root: Hash): seq<Hash>
    requires root in d.nodes
  {
    WalkFrom(d, [root], [])
  }

  // ---------------------------------------------------------------- scoring

  function Signed(sign: Signer, b: ContentBlock, f: TranscriptFile): bool {
    sign(b) != "" && sign(b) in f.signatures
  }

  function BlockOverlap(sign: Signer, blocks: seq<ContentBlock>, n: nat, f: TranscriptFile): nat
    requires n <= |blocks|
  {
    if n == 0 then 0 else BlockOverlap(sign, blocks, n - 1, f) + (if Signed(sign, blocks[n - 1], f) then 1 else 0)
  }

  function Content(d: Derived, h: Hash): seq<ContentBlock> {
    if h in d.byHash then d.byHash[h].node.bucket.content else []
  }

  function Overlap(d: Derived, sign: Signer, chain: seq<Hash>, f: TranscriptFile): nat {
    if chain == [] then 0
    else
      var blocks := Content(d, chain[|chain| - 1]);
      Overlap(d, sign, chain[..|chain| - 1], f) + BlockOverlap(sign, blocks, |blocks|, f)
  }

  predicate Matched(d: Derived, sign: Signer, h: Hash, candidates: seq<TranscriptFile>) {
    exists b, f :: b in Content(d, h) && f in candidates && Signed(sign, b, f)
  }

  function Joined(d: Derived, sign: Signer, chain: seq<Hash>, candidates: seq<TranscriptFile>): nat {
    if chain == [] then 0
    else Joined(d, sign, chain[..|chain| - 1], candidates) + (if Matched(d, sign, chain[|chain| - 1], candidates) then 1 else 0)
  }

  /** The first candidate whose agent id is the chain's capture-time thread. */
  function ByIdentity(thread: string, candidates: seq<TranscriptFile>): (r: Option<TranscriptFile>)
    ensures r.Some? <==> thread != "" && exists f :: f in candidates && f.agentId == thread
    ensures r.Some? ==> r.value in candidates && r.value.agentId == thread
  {
    if candidates == [] || thread == "" then None
    else if candidates[0].agentId == thread then Some(candidates[0])
    else
      assert candidates == [candidates[0]] + candidates[1..];
      ByIdentity(thread, candidates[1..])
  }

  /** The first candidate of greatest overlap among the first n. */
  function Heaviest(d: Derived, sign: Signer, chain: seq<Hash>, candidates: seq<TranscriptFile>,
                    n: nat): (r: Option<TranscriptFile>)
    requires n <= |candidates|
    ensures r.Some? <==> n > 0
    ensures r.Some? ==> r.value in candidates[..n]
    ensures forall k | 0 <= k < n :: Overlap(d, sign, chain, candidates[k]) <= Overlap(d, sign, chain, r.value)
  {
    if n == 0 then None
    else
      var best := Heaviest(d, sign, chain, candidates, n - 1);
      var f := candidates[n - 1];
      if best.None? || Overlap(d, sign, chain, f) > Overlap(d, sign, chain, best.value) then Some(f) else best
  }

  function Best(d: Derived, sign: Signer, root: Hash, chain: seq<Hash>,
                candidates: seq<TranscriptFile>): Option<TranscriptFile>
    requires root in d.byHash
  {
    var byId := ByIdentity(d.byHash[root].node.thread, candidates);
    if byId.Some? then byId
    else
      var heavy := Heaviest(d, sign, chain, candidates, |candidates|);
      if heavy.Some? && Overlap(d, sign, chain, heavy.value) == 0 then None else heavy
  }

  // ---------------------------------------------------------------- stamping

  function StampOne(byHash: map<Hash, Kept>, h: Hash, id: string): map<Hash, Kept> {
    if h in byHash then byHash[h := byHash[h].(node := byHash[h].node.(forkStamp := id))] else byHash
  }

  function Stamped(byHash: map<Hash, Kept>, chain: seq<Hash>, id: string): map<Hash, Kept> {
    if chain == [] then byHash
    else StampOne(Stamped(byHash, chain[..|chain| - 1], id), chain[|chain| - 1], id)
  }

  function For(session: Session, files: seq<TranscriptFile>): seq<TranscriptFile> {
    if files == [] then []
    else
      var f := files[|files| - 1];
      For(session, files[..|files| - 1]) + (if f.started && f.session == session then [f] else [])
  }

  /** Whether a root takes part at all. */
  predicate TakesPart(d: Derived, files: seq<TranscriptFile>, authoritative: set<Session>, root: Hash)
    requires root in d.byHash
  {
    d.byHash[root].session in authoritative && For(d.byHash[root].session, files) != []
  }

  function ReconcileRoot(d: Derived, sign: Signer, files: seq<TranscriptFile>, authoritative: set<Session>, root: Hash,
                         stats: ChainStats): (Derived, ChainStats)
    requires root in d.nodes && root in d.byHash
  {
    if !TakesPart(d, files, authoritative, root) then (d, stats)
    else
      var candidates := For(d.byHash[root].session, files);
      var chain := ChainUnder(d, root);
      var counted := stats.(total := stats.total + |chain|, joined := stats.joined + Joined(d, sign, chain, candidates));
      var best := Best(d, sign, root, chain, candidates);
      if best.None? then (d, counted)
      else if best.value.agentId == "" then (d, counted.(mainJoined := counted.mainJoined + 1))
      else if best.value.toolUseId == "" then (d, counted)
      else (d.(byHash := Stamped(d.byHash, chain, best.value.toolUseId)), counted.(forked := counted.forked + 1))
  }

  // ---------------------------------------------------------------- codex spawns

  datatype ThreadMeta = ThreadMeta(path: string, nickname: string)

  type TaskName = string -> string

  /** The started anchor row of a thread; a later row of the same thread replaces it. */
  function AnchorRow(files: seq<TranscriptFile>, key: Key): Option<TranscriptFile> {
    if files == [] then None
    else
      var f := files[|files| - 1];
      if IsAnchor(f) && f.started && Key(f.session, f.agentId) == key then Some(f)
      else AnchorRow(files[..|files| - 1], key)
  }

  predicate IsAnchor(f: TranscriptFile) {
    f.session.harness == "codex" && f.agentId != "" && f.toolUseId != ""
  }

  function Interacted(files: seq<TranscriptFile>): nat {
    if files == [] then 0
    else
      var f := files[|files| - 1];
      Interacted(files[..|files| - 1]) + (if IsAnchor(f) && !f.started then 1 else 0)
  }

  /** byPath and ambiguous, one pair per session. */
  datatype Joins = Joins(byPath: map<Key, string>, ambiguous: set<Key>)

  predicate Reports(name: TaskName, b: ContentBlock) {
    b.kind == ToolResult && b.toolResultId != "" && name(b.toolOutput) != ""
  }

  function JoinBlock(name: TaskName, j: Joins, s: Session, b: ContentBlock): Joins {
    if !Reports(name, b) then j
    else
      var key := Key(s, name(b.toolOutput));
      if key in j.byPath && j.byPath[key] != b.toolResultId then j.(ambiguous := j.ambiguous + {key})
      else j.(byPath := j.byPath[key := b.toolResultId])
  }

  function JoinBlocks(name: TaskName, j: Joins, s: Session, blocks: seq<ContentBlock>, n: nat): Joins
    requires n <= |blocks|
  {
    if n == 0 then j else JoinBlock(name, JoinBlocks(name, j, s, blocks, n - 1), s, blocks[n - 1])
  }

  function JoinChain(d: Derived, name: TaskName, j: Joins, s: Source, n: nat): Joins
    requires n <= |s.chain| && n <= |s.isNew|
  {
    if n == 0 then j
    else
      var before := JoinChain(d, name, j, s, n - 1);
      var blocks := Content(d, s.chain[n - 1]);
      if s.isNew[n - 1] then JoinBlocks(name, before, s.session, blocks, |blocks|) else before
  }

  predicate WireCodex(s: Source) {
    s.wire && s.session.harness == "codex"
  }

  function JoinAll(d: Derived, name: TaskName, sources: seq<Source>): Joins
    requires forall s | s in sources :: |s.isNew| == |s.chain|
  {
    if sources == [] then Joins(map[], {})
    else
      var s := sources[|sources| - 1];
      var before := JoinAll(d, name, sources[..|sources| - 1]);
      if WireCodex(s) then JoinChain(d, name, before, s, |s.chain|) else before
  }

  /** The anchor the calls of a thread resolve to, or "" when they stay unanchored. */
  function SpawnAnchor(files: seq<TranscriptFile>, j: Joins, threads: map<Key, ThreadMeta>, thread: Key): string {
    var row := AnchorRow(files, thread);
    if row.Some? then row.value.toolUseId else PathAnchor(j, threads, thread)
  }

  /** The agent-path fallback. */
  function PathAnchor(j: Joins, threads: map<Key, ThreadMeta>, thread: Key): string {
    if thread !in threads || threads[thread].path == "" then ""
    else
      var path := Key(thread.session, threads[thread].path);
      if path !in j.ambiguous && path in j.byPath then j.byPath[path] else ""
  }

  predicate IsThreadCall(s: Source) {
    WireCodex(s) && s.thread != ""
  }

  function ThreadOf(s: Source): Key {
    Key(s.session, s.thread)
  }

  function Anchored(files: seq<TranscriptFile>, j: Joins, threads: map<Key, ThreadMeta>, s: Source): Source {
    var anchor := if IsThreadCall(s) then SpawnAnchor(files, j, threads, ThreadOf(s)) else "";
    if anchor != "" then s.(anchor := anchor) else s
  }

  function AnchoredAll(files: seq<TranscriptFile>, j: Joins, threads: map<Key, ThreadMeta>,
                       sources: seq<Source>): (r: seq<Source>)
    ensures |r| == |sources| && forall k | 0 <= k < |sources| :: r[k] == Anchored(files, j, threads, sources[k])
  {
    if sources == [] then []
    else AnchoredAll(files, j, threads, sources[..|sources| - 1]) + [Anchored(files, j, threads, sources[|sources| - 1])]
  }

  // ---------------------------------------------------------------- the two stages

  function ReconcileRoots(d: Derived, sign: Signer, files: seq<TranscriptFile>, authoritative: set<Session>, n: nat):
    (r: (Derived, ChainStats))
    requires Filed(d) && n <= |Roots(d)|
    ensures r.0 == d.(byHash := r.0.byHash) && r.0.byHash.Keys == d.byHash.Keys
  {
    if n == 0 then (d, NO_CHAINS)
    else
      var before := ReconcileRoots(d, sign, files, authoritative, n - 1);
      var root := Roots(d)[n - 1];
      assert root in Roots(d) && d.nodes[..|d.nodes|] == d.nodes;
      var r := ReconcileRoot(before.0, sign, files, authoritative, root, before.1);
      StampedKeys(before.0.byHash, ChainUnder(before.0, root));
      r
  }

  lemma {:induction false} StampedKeys(byHash: map<Hash, Kept>, chain: seq<Hash>)
    ensures forall id :: Stamped(byHash, chain, id).Keys == byHash.Keys
  {
    if chain != [] { StampedKeys(byHash, chain[..|chain| - 1]); }
  }

  /** Sessions with a wire main call and no transcript main call. */
  function Authoritative(sources: seq<Source>): set<Session> {
    (set s | s in sources && s.kind == Main && s.wire :: s.session)
    - (set s | s in sources && s.kind == Main && !s.wire :: s.session)
  }
}
