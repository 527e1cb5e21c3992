/** The derived set read off the captured calls: what each source, each retained node and
    each counter is, by position and by count. */
module DeriveBooks {
  import opened Llm
  import opened DeriveModel
  import opened Chain
  import opened DeriverModel
  import Dedup

  // ---------------------------------------------------------------- the reference

  /** The calls that have a chain. */
  ghost function Heard(turns: seq<ChainTurn>): (us: seq<ChainTurn>)
    ensures forall t | t in us :: t.chain != []
  {
    if turns == [] then []
    else Heard(turns[..|turns| - 1]) + (if turns[|turns| - 1].chain == [] then [] else [turns[|turns| - 1]])
  }

  ghost predicate Has(us: seq<ChainTurn>, k: int, i: int, h: Hash)
    ensures Has(us, k, i, h) ==> 0 <= k < |us| && 0 <= i < |us[k].chain|
  {
    0 <= k < |us| && 0 <= i < |us[k].chain| && us[k].chain[i].hash == h
  }

  /** Position i of call k is the first of all to bring its hash. */
  ghost predicate Brings(us: seq<ChainTurn>, k: int, i: int, h: Hash)
    ensures Brings(us, k, i, h) ==> Has(us, k, i, h)
  {
    Has(us, k, i, h) && forall l, j | Has(us, l, j, h) :: k < l || (k == l && i <= j)
  }

  /** A source is its call, under the kind of the response, naming every node of the chain
      and marking those this call was the first to bring. */
  ghost predicate SourceTold(us: seq<ChainTurn>, k: int, s: Source) {
    && 0 <= k < |us|
    && var t := us[k];
       && t.chain != [] && s.kind == t.chain[|t.chain| - 1].kind
       && s.rawTurn == t.rawTurn && s.requestId == t.requestId && s.at == t.at && s.thread == t.thread
       && s.session == t.session && s.wire == t.wire && s.action == t.action && s.anchor == t.anchor
       && |s.chain| == |s.isNew| == |t.chain|
       && forall i | 0 <= i < |t.chain| :: s.chain[i] == t.chain[i].hash && (s.isNew[i] <==> Brings(us, k, i, t.chain[i].hash))
  }

  /** A retained node is as its first capture had it, dated by the call where it has no time. */
  ghost predicate KeptAs(kept: Kept, t: ChainTurn, n: ChainNode) {
    && kept.session == t.session
    && kept.node.hash == n.hash && kept.node.bucket == n.bucket && kept.node.kind == n.kind && kept.node.thread == n.thread
    && kept.node.stopReason == n.stopReason && kept.node.usage == n.usage && kept.node.forkStamp == ""
    && match n.createdAt case Some(at) => kept.node.capturedAt == at case None => kept.node.capturedAt == t.at
  }

  ghost predicate KeptTold(us: seq<ChainTurn>, h: Hash, kept: Kept) {
    exists k, i :: Brings(us, k, i, h) && KeptAs(kept, us[k], us[k].chain[i])
  }

  ghost predicate NodesTold(us: seq<ChainTurn>, byHash: map<Hash, Kept>) {
    && (forall h :: h in byHash <==> exists k, i :: Has(us, k, i, h))
    && (forall h | h in byHash :: KeptTold(us, h, byHash[h]))
  }

  ghost function Hits(us: seq<ChainTurn>, p: ChainTurn -> bool): set<nat> {
    set i: nat | i < |us| && p(us[i])
  }

  predicate Answers(t: ChainTurn, kind: Kind) {
    t.chain != [] && t.chain[|t.chain| - 1].kind == kind
  }

  ghost predicate CountsTold(us: seq<ChainTurn>, d: Derived) {
    && (forall kind :: Count(d.callKinds, kind) == |Hits(us, (t: ChainTurn) => Answers(t, kind))|)
    && (forall s :: Count(d.wireMain, s) == |Hits(us, (t: ChainTurn) => t.wire && Answers(t, Main) && t.session == s)|)
  }

  ghost function OfKind(byHash: map<Hash, Kept>, kind: Kind): set<Hash> {
    set h | h in byHash && byHash[h].node.kind == kind
  }

  ghost predicate NodeKindsTold(d: Derived) {
    forall kind :: Count(d.nodeKinds, kind) == |OfKind(d.byHash, kind)|
  }

  /** The sessions with an id, each once, in the order they were first heard. */
  ghost predicate SessionsTold(us: seq<ChainTurn>, sessions: seq<Session>) {
    && (forall s :: s in sessions <==> s.id != "" && exists k :: 0 <= k < |us| && us[k].session == s)
    && (forall i, j | 0 <= i < j < |sessions| :: HeardBefore(us, sessions[i], sessions[j]))
  }

  ghost predicate HeardBefore(us: seq<ChainTurn>, s: Session, later: Session) {
    exists k :: 0 <= k < |us| && us[k].session == s && forall l | 0 <= l <= k :: us[l].session != later
  }

  // ---------------------------------------------------------------- one more call

  lemma HasSnoc(us: seq<ChainTurn>, t: ChainTurn, k: int, i: int, h: Hash)
    ensures Has(us + [t], k, i, h) <==> Has(us, k, i, h) || (k == |us| && 0 <= i < |t.chain| && t.chain[i].hash == h)
  {
  }

  lemma BringsStays(us: seq<ChainTurn>, t: ChainTurn, k: int, i: int, h: Hash)
    requires 0 <= k < |us|
    ensures Brings(us + [t], k, i, h) <==> Brings(us, k, i, h)
  {
    forall l, j ensures Has(us + [t], l, j, h) <==> Has(us, l, j, h) || (l == |us| && 0 <= j < |t.chain| && t.chain[j].hash == h) {
      HasSnoc(us, t, l, j, h);
    }
  }

  lemma BringsNew(us: seq<ChainTurn>, t: ChainTurn, i: int, h: Hash)
    ensures Brings(us + [t], |us|, i, h)
       <==> 0 <= i < |t.chain| && t.chain[i].hash == h && (forall j | 0 <= j < i :: t.chain[j].hash != h)
            && !exists k, j :: Has(us, k, j, h)
  {
    forall l, j ensures Has(us + [t], l, j, h) <==> Has(us, l, j, h) || (l == |us| && 0 <= j < |t.chain| && t.chain[j].hash == h) {
      HasSnoc(us, t, l, j, h);
    }
    forall j | 0 <= j < |t.chain| ensures Has(us + [t], |us|, j, h) <==> t.chain[j].hash == h {
      HasSnoc(us, t, |us|, j, h);
    }
    forall k, j | Has(us, k, j, h) ensures Has(us + [t], k, j, h) && k < |us| {
    }
  }

  // ---------------------------------------------------------------- sources and nodes

  /** What the nodes of one call add to the retained ones. */
  lemma {:induction false} NodesAdd(render: Renderer, d: Derived, t: ChainTurn, n: nat, h: Hash)
    requires n <= |t.chain|
    ensures var r := AddNodes(render, d, t, n);
            && (h in d.byHash ==> h in r.byHash && r.byHash[h] == d.byHash[h])
            && (h !in d.byHash && h in r.byHash ==>
                  exists i :: 0 <= i < n && t.chain[i].hash == h && (forall j | 0 <= j < i :: t.chain[j].hash != h)
                              && KeptAs(r.byHash[h], t, t.chain[i]))
  {
    hide AddTools, KeptAs;
    if n > 0 {
      NodesAdd(render, d, t, n - 1, h);
      var e, node := AddNodes(render, d, t, n - 1), t.chain[n - 1];
      KeepMeans(t, node);
      if h !in e.byHash && node.hash == h { Dedup.NodesKept(render, d, t, n - 1); }
    }
  }

  lemma KeepMeans(t: ChainTurn, n: ChainNode)
    ensures KeptAs(Keep(t, n), t, n)
  {
  }

  lemma TurnNodesTold(render: Renderer, us: seq<ChainTurn>, d: Derived, t: ChainTurn)
    requires NodesTold(us, d.byHash) && t.chain != []
    ensures NodesTold(us + [t], AddTurn(render, d, t).byHash)
  {
    hide Has, Brings, KeptAs, AddNodes, NewFlags, Hashes;
    var r := AddTurn(render, d, t);
    Dedup.TurnByHash(render, d, t);
    forall h ensures h in r.byHash <==> exists k, i :: Has(us + [t], k, i, h) {
      forall k, i ensures Has(us + [t], k, i, h) <==> Has(us, k, i, h) || (k == |us| && 0 <= i < |t.chain| && t.chain[i].hash == h) {
        HasSnoc(us, t, k, i, h);
      }
      if i :| 0 <= i < |t.chain| && t.chain[i].hash == h { assert Has(us + [t], |us|, i, h); }
      if h in d.byHash {
        var k, i :| Has(us, k, i, h);
        assert Has(us + [t], k, i, h);
      }
    }
    forall h | h in r.byHash ensures KeptTold(us + [t], h, r.byHash[h]) {
      NodesAdd(render, Booked(d, t), t, |t.chain|, h);
      if h in d.byHash {
        var k, i :| Brings(us, k, i, h) && KeptAs(d.byHash[h], us[k], us[k].chain[i]);
        BringsStays(us, t, k, i, h);
        assert (us + [t])[k] == us[k];
      } else {
        var i :| 0 <= i < |t.chain| && t.chain[i].hash == h && (forall j | 0 <= j < i :: t.chain[j].hash != h)
                 && KeptAs(r.byHash[h], t, t.chain[i]);
        BringsNew(us, t, i, h);
        assert (us + [t])[|us|] == t;
      }
    }
  }

  lemma TurnSourceTold(render: Renderer, us: seq<ChainTurn>, d: Derived, t: ChainTurn)
    requires NodesTold(us, d.byHash) && t.chain != []
    ensures AddTurn(render, d, t).sources == d.sources + [Dedup.SourceOf(render, d, t)]
    ensures SourceTold(us + [t], |us|, Dedup.SourceOf(render, d, t))
  {
    hide Brings, Has;
    var s := Dedup.SourceOf(render, d, t);
    forall i | 0 <= i < |t.chain| ensures s.chain[i] == t.chain[i].hash && (s.isNew[i] <==> Brings(us + [t], |us|, i, t.chain[i].hash)) {
      Dedup.SourceShape(render, d, t, i);
      BringsNew(us, t, i, t.chain[i].hash);
    }
    hide AddNodes, NewFlags, Booked;
    assert (us + [t])[|us|] == t;
  }

  // ---------------------------------------------------------------- counters

  lemma HitsSnoc(us: seq<ChainTurn>, t: ChainTurn, p: ChainTurn -> bool)
    ensures |Hits(us + [t], p)| == |Hits(us, p)| + if p(t) then 1 else 0
  {
    var all, before := Hits(us + [t], p), Hits(us, p);
    assert forall i: nat | i < |us| :: (us + [t])[i] == us[i];
    assert all == before + if p(t) then {|us|} else {};
  }

  lemma {:induction false} NodesKeepBooks(render: Renderer, d: Derived, t: ChainTurn, n: nat)
    requires n <= |t.chain|
    ensures var r := AddNodes(render, d, t, n); r.callKinds == d.callKinds && r.wireMain == d.wireMain && r.sessions == d.sessions
  {
    if n > 0 { NodesKeepBooks(render, d, t, n - 1); }
  }

  lemma TurnCountsTold(render: Renderer, us: seq<ChainTurn>, d: Derived, t: ChainTurn)
    requires CountsTold(us, d) && t.chain != []
    ensures CountsTold(us + [t], AddTurn(render, d, t))
  {
    hide AddNodes, NewFlags, Hashes, Hits;
    NodesKeepBooks(render, Booked(d, t), t, |t.chain|);
    var r := AddTurn(render, d, t);
    forall kind ensures Count(r.callKinds, kind) == |Hits(us + [t], (t: ChainTurn) => Answers(t, kind))| {
      HitsSnoc(us, t, (t: ChainTurn) => Answers(t, kind));
      assert Count(d.callKinds, kind) == |Hits(us, (t: ChainTurn) => Answers(t, kind))|;
    }
    forall s ensures Count(r.wireMain, s) == |Hits(us + [t], (t: ChainTurn) => t.wire && Answers(t, Main) && t.session == s)| {
      HitsSnoc(us, t, (t: ChainTurn) => t.wire && Answers(t, Main) && t.session == s);
      assert Count(d.wireMain, s) == |Hits(us, (t: ChainTurn) => t.wire && Answers(t, Main) && t.session == s)|;
    }
  }

  lemma OneMoreOfKind(byHash: map<Hash, Kept>, h: Hash, kept: Kept, kind: Kind)
    requires h !in byHash
    ensures |OfKind(byHash[h := kept], kind)| == |OfKind(byHash, kind)| + if kept.node.kind == kind then 1 else 0
  {
    assert OfKind(byHash[h := kept], kind) == OfKind(byHash, kind) + if kept.node.kind == kind then {h} else {};
  }

  lemma RetainKinds(d: Derived, t: ChainTurn, n: ChainNode)
    requires NodeKindsTold(d)
    ensures NodeKindsTold(Retain(d, t, n))
  {
    if n.hash !in d.byHash {
      hide OfKind;
      var r := Retain(d, t, n);
      KeepMeans(t, n);
      forall kind ensures Count(r.nodeKinds, kind) == |OfKind(r.byHash, kind)| {
        OneMoreOfKind(d.byHash, n.hash, Keep(t, n), kind);
      }
    }
  }

  lemma {:induction false} NodesKinds(render: Renderer, d: Derived, t: ChainTurn, n: nat)
    requires n <= |t.chain| && NodeKindsTold(d)
    ensures NodeKindsTold(AddNodes(render, d, t, n))
  {
    hide NodeKindsTold, Retain, AddTools;
    if n > 0 {
      NodesKinds(render, d, t, n - 1);
      var e, node := AddNodes(render, d, t, n - 1), t.chain[n - 1];
      RetainKinds(e, t, node);
      KindsRead(Retain(e, t, node), AddNodes(render, d, t, n));
    }
  }

  lemma KindsRead(d: Derived, e: Derived)
    requires NodeKindsTold(d) && e.nodeKinds == d.nodeKinds && e.byHash == d.byHash
    ensures NodeKindsTold(e)
  {
  }

  lemma TurnSessionsTold(us: seq<ChainTurn>, d: Derived, t: ChainTurn)
    requires SessionsTold(us, d.sessions) && t.chain != []
    ensures SessionsTold(us + [t], Booked(d, t).sessions)
  {
    var vs, r := us + [t], Booked(d, t).sessions;
    assert forall k | 0 <= k < |us| :: vs[k] == us[k];
    assert vs[|us|] == t;
    forall s ensures s in r <==> s.id != "" && exists k :: 0 <= k < |vs| && vs[k].session == s {
      if k :| 0 <= k < |us| && us[k].session == s { assert vs[k].session == s; }
    }
    forall i, j | 0 <= i < j < |r| ensures HeardBefore(vs, r[i], r[j]) {
      if j < |d.sessions| {
        assert HeardBefore(us, d.sessions[i], d.sessions[j]);
        var k :| 0 <= k < |us| && us[k].session == r[i] && forall l | 0 <= l <= k :: us[l].session != r[j];
        assert vs[k].session == r[i];
      } else {
        assert r[i] in d.sessions;
        var k :| 0 <= k < |us| && us[k].session == r[i];
        assert vs[k].session == r[i];
      }
    }
  }

  // ---------------------------------------------------------------- the whole pass

  ghost predicate SourcesTold(us: seq<ChainTurn>, sources: seq<Source>) {
    |sources| == |us| && forall k | 0 <= k < |us| :: SourceTold(us, k, sources[k])
  }

  lemma SourcesMore(us: seq<ChainTurn>, t: ChainTurn, sources: seq<Source>, s: Source)
    requires SourcesTold(us, sources) && SourceTold(us + [t], |us|, s)
    ensures SourcesTold(us + [t], sources + [s])
  {
    hide Brings;
    forall k | 0 <= k < |us| ensures SourceTold(us + [t], k, sources[k]) {
      assert (us + [t])[k] == us[k];
      forall i | 0 <= i < |us[k].chain| ensures Brings(us + [t], k, i, us[k].chain[i].hash) <==> Brings(us, k, i, us[k].chain[i].hash) {
        BringsStays(us, t, k, i, us[k].chain[i].hash);
      }
    }
  }

  /** A derive pass, read off its calls: one source per call with a chain; every hash kept as
      its first capture brought it; calls, nodes and wire conversations counted by kind; and
      the sessions in the order they were heard. */
  lemma {:induction false} DeriveMeans(render: Renderer, turns: seq<ChainTurn>)
    ensures var d, us := Derive(render, turns), Heard(turns);
            && SourcesTold(us, d.sources) && NodesTold(us, d.byHash) && CountsTold(us, d) && NodeKindsTold(d)
            && SessionsTold(us, d.sessions)
  {
    if turns == [] {
      NothingTold(render);
    } else {
      hide SourcesTold, NodesTold, CountsTold, NodeKindsTold, SessionsTold, AddNodes, NewFlags, Hashes, SourceTold;
      var rest, t := turns[..|turns| - 1], turns[|turns| - 1];
      var us, d := Heard(rest), Derive(render, rest);
      DeriveMeans(render, rest);
      if t.chain == [] {
        assert Heard(turns) == us;
      } else {
        TurnNodesTold(render, us, d, t);
        TurnSourceTold(render, us, d, t);
        SourcesMore(us, t, d.sources, Dedup.SourceOf(render, d, t));
        TurnCountsTold(render, us, d, t);
        KindsRead(d, Booked(d, t));
        NodesKinds(render, Booked(d, t), t, |t.chain|);
        KindsRead(AddNodes(render, Booked(d, t), t, |t.chain|), AddTurn(render, d, t));
        TurnSessionsTold(us, d, t);
        NodesKeepBooks(render, Booked(d, t), t, |t.chain|);
      }
    }
  }

  lemma NothingTold(render: Renderer)
    ensures var d, us := Derive(render, []), Heard([]);
            && SourcesTold(us, d.sources) && NodesTold(us, d.byHash) && CountsTold(us, d) && NodeKindsTold(d)
            && SessionsTold(us, d.sessions)
  {
    assert forall k, i, h :: !Has([], k, i, h);
  }
}
