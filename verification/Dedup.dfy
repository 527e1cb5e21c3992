/** Streaming dedup refines "distinct hashes in first-occurrence order", and everything the
    span emitter needs of its sources follows. */
module Dedup {
  import opened Llm
  import opened DeriveModel
  import opened Chain
  import opened DeriverModel

  // ---------------------------------------------------------------- the reference

  /** Distinct elements in first-occurrence order. */
  ghost function Distinct<T>(s: seq<T>): seq<T> {
    if s == [] then []
    else
      var x := s[|s| - 1];
      var head := Distinct(s[..|s| - 1]);
      if x in s[..|s| - 1] then head else head + [x]
  }

  /** Every node of every chain, in the order the calls bring them, as it would be kept. */
  ghost function Arrivals(turns: seq<ChainTurn>): seq<Kept> {
    if turns == [] then [] else Arrivals(turns[..|turns| - 1]) + Brought(turns[|turns| - 1], |turns[|turns| - 1].chain|)
  }

  ghost function Brought(t: ChainTurn, n: nat): (r: seq<Kept>)
    requires n <= |t.chain|
    ensures |r| == n && forall i | 0 <= i < n :: r[i] == Keep(t, t.chain[i])
  {
    if n == 0 then [] else Brought(t, n - 1) + [Keep(t, t.chain[n - 1])]
  }

  ghost function HashesOf(ks: seq<Kept>): (r: seq<Hash>)
    ensures |r| == |ks| && forall i | 0 <= i < |ks| :: r[i] == ks[i].node.hash
  {
    if ks == [] then [] else HashesOf(ks[..|ks| - 1]) + [ks[|ks| - 1].node.hash]
  }

  /** i is the first position at which ks brings its hash. */
  ghost predicate First(ks: seq<Kept>, i: nat)
    requires i < |ks|
  {
    forall j | 0 <= j < i :: ks[j].node.hash != ks[i].node.hash
  }

  /** The retained nodes are exactly the first arrivals, in order. */
  ghost predicate Tracks(d: Derived, ks: seq<Kept>) {
    && d.nodes == Distinct(HashesOf(ks))
    && (forall h :: h in d.byHash <==> h in HashesOf(ks))
    && (forall i | 0 <= i < |ks| && First(ks, i) :: ks[i].node.hash in d.byHash && d.byHash[ks[i].node.hash] == ks[i])
  }

  lemma HashesSnoc(ks: seq<Kept>, k: Kept)
    ensures HashesOf(ks + [k]) == HashesOf(ks) + [k.node.hash]
  {
    assert (ks + [k])[..|ks|] == ks;
  }

  lemma DistinctSnoc<T>(s: seq<T>, x: T)
    ensures Distinct(s + [x]) == if x in s then Distinct(s) else Distinct(s) + [x]
  {
    assert (s + [x])[..|s|] == s;
  }

  lemma FirstSnoc(ks: seq<Kept>, k: Kept, i: nat)
    requires i <= |ks|
    ensures i < |ks| ==> (First(ks + [k], i) <==> First(ks, i))
    ensures First(ks + [k], |ks|) <==> k.node.hash !in HashesOf(ks)
  {
    var hs, all := HashesOf(ks), ks + [k];
    if k.node.hash in hs {
      var j :| 0 <= j < |hs| && hs[j] == k.node.hash;
      assert all[j].node.hash == k.node.hash;
    } else {
      forall j | 0 <= j < |ks| ensures all[j].node.hash != k.node.hash {
        assert hs[j] == all[j].node.hash;
      }
    }
  }

  lemma RetainTracks(d: Derived, ks: seq<Kept>, t: ChainTurn, n: ChainNode)
    requires Tracks(d, ks)
    ensures Tracks(Retain(d, t, n), ks + [Keep(t, n)])
  {
    hide Distinct, HashesOf, First;
    var k := Keep(t, n);
    var r, all := Retain(d, t, n), ks + [k];
    HashesSnoc(ks, k);
    DistinctSnoc(HashesOf(ks), n.hash);
    FirstSnoc(ks, k, |ks|);
    forall i | 0 <= i < |all| && First(all, i) ensures all[i].node.hash in r.byHash && r.byHash[all[i].node.hash] == all[i] {
      FirstSnoc(ks, k, i);
    }
  }

  lemma AddNodeTracks(render: Renderer, d: Derived, ks: seq<Kept>, t: ChainTurn, n: ChainNode)
    requires Tracks(d, ks)
    ensures Tracks(AddNode(render, d, t, n), ks + [Keep(t, n)])
  {
    hide Distinct, HashesOf;
    RetainTracks(d, ks, t, n);
  }

  lemma {:induction false} AddNodesTrack(render: Renderer, d: Derived, ks: seq<Kept>, t: ChainTurn, n: nat)
    requires n <= |t.chain| && Tracks(d, ks)
    ensures Tracks(AddNodes(render, d, t, n), ks + Brought(t, n))
  {
    hide Tracks, AddNode;
    if n == 0 {
      assert ks + Brought(t, 0) == ks;
    } else {
      AddNodesTrack(render, d, ks, t, n - 1);
      AddNodeTracks(render, AddNodes(render, d, t, n - 1), ks + Brought(t, n - 1), t, t.chain[n - 1]);
      assert ks + Brought(t, n) == (ks + Brought(t, n - 1)) + [Keep(t, t.chain[n - 1])];
    }
  }

  /** The dedup refinement: whatever the calls re-send, the retained nodes are the distinct
      hashes in first-occurrence order, each kept as its first capture. */
  lemma {:induction false} RetainsFirstOccurrences(render: Renderer, turns: seq<ChainTurn>)
    ensures Tracks(Derive(render, turns), Arrivals(turns))
  {
    if turns == [] {
    } else {
      hide Tracks, AddNodes, NewFlags;
      var rest, t := turns[..|turns| - 1], turns[|turns| - 1];
      var d := Derive(render, rest);
      RetainsFirstOccurrences(render, rest);
      if t.chain == [] {
        assert Arrivals(rest) + Brought(t, 0) == Arrivals(rest);
      } else {
        TracksReads(d, Booked(d, t), Arrivals(rest));
        AddNodesTrack(render, Booked(d, t), Arrivals(rest), t, |t.chain|);
        TracksReads(AddNodes(render, Booked(d, t), t, |t.chain|), AddTurn(render, d, t), Arrivals(turns));
      }
    }
  }

  lemma TracksReads(d: Derived, e: Derived, ks: seq<Kept>)
    requires Tracks(d, ks) && e.byHash == d.byHash && e.nodes == d.nodes
    ensures Tracks(e, ks)
  {
  }

  // ---------------------------------------------------------------- new exactly once

  ghost predicate Keeps(d: Derived, e: Derived) {
    forall h | h in d.byHash :: h in e.byHash && e.byHash[h] == d.byHash[h]
  }

  lemma OneMore(render: Renderer, d: Derived, t: ChainTurn, n: ChainNode)
    ensures Keeps(d, AddNode(render, d, t, n))
    ensures forall h :: h in AddNode(render, d, t, n).byHash <==> h in d.byHash || h == n.hash
  {
    hide AddTools;
  }

  lemma {:induction false} NodesKept(render: Renderer, d: Derived, t: ChainTurn, n: nat)
    requires n <= |t.chain|
    ensures Keeps(d, AddNodes(render, d, t, n))
    ensures forall h :: h in AddNodes(render, d, t, n).byHash
              <==> h in d.byHash || exists i :: 0 <= i < n && t.chain[i].hash == h
  {
    if n > 0 {
      NodesKept(render, d, t, n - 1);
      var before, after := AddNodes(render, d, t, n - 1), AddNodes(render, d, t, n);
      assert after == AddNode(render, before, t, t.chain[n - 1]);
      hide AddNode, AddNodes;
      OneMore(render, before, t, t.chain[n - 1]);
      forall h ensures h in after.byHash <==> h in d.byHash || exists i :: 0 <= i < n && t.chain[i].hash == h {
        if h == t.chain[n - 1].hash {
          assert h in after.byHash;
        } else {
          assert h in after.byHash <==> h in before.byHash;
        }
      }
    }
  }

  /** A position is new when nothing before it, in any call, brought its hash. */
  lemma {:induction false} FlagMeans(render: Renderer, d: Derived, t: ChainTurn, n: nat, i: nat)
    requires i < n <= |t.chain|
    ensures NewFlags(render, d, t, n)[i]
       <==> t.chain[i].hash !in d.byHash && forall j | 0 <= j < i :: t.chain[j].hash != t.chain[i].hash
  {
    if i == n - 1 {
      NodesKept(render, d, t, i);
    } else {
      FlagMeans(render, d, t, n - 1, i);
    }
  }

  ghost predicate NewAt(s: Source, i: int, h: Hash) {
    0 <= i < |s.chain| && i < |s.isNew| && s.chain[i] == h && s.isNew[i]
  }

  /** At most one position of one call is new for a hash. */
  ghost predicate NewOnce(sources: seq<Source>) {
    forall k, i, l, j, h | 0 <= k < |sources| && 0 <= l < |sources| && NewAt(sources[k], i, h) && NewAt(sources[l], j, h) ::
      k == l && i == j
  }

  ghost predicate Introduced(sources: seq<Source>, h: Hash) {
    exists k, i :: 0 <= k < |sources| && NewAt(sources[k], i, h)
  }

  ghost predicate Consistent(d: Derived) {
    && AllResolved(d)
    && (forall s | s in d.sources :: s.chain != [])
    && NewOnce(d.sources)
    && (forall h | h in d.byHash :: Introduced(d.sources, h) && d.byHash[h].node.hash == h)
  }

  ghost function SourceOf(render: Renderer, d: Derived, t: ChainTurn): Source
    requires t.chain != []
  {
    AddTurn(render, d, t).sources[|d.sources|]
  }

  lemma SourceShape(render: Renderer, d: Derived, t: ChainTurn, i: nat)
    requires i < |t.chain|
    ensures AddTurn(render, d, t).sources == d.sources + [SourceOf(render, d, t)]
    ensures |SourceOf(render, d, t).chain| == |SourceOf(render, d, t).isNew| == |t.chain|
    ensures SourceOf(render, d, t).chain[i] == t.chain[i].hash
    ensures SourceOf(render, d, t).isNew[i]
       <==> t.chain[i].hash !in d.byHash && forall j | 0 <= j < i :: t.chain[j].hash != t.chain[i].hash
  {
    FlagMeans(render, Booked(d, t), t, |t.chain|, i);
  }

  lemma TurnByHash(render: Renderer, d: Derived, t: ChainTurn)
    requires t.chain != []
    ensures Keeps(d, AddTurn(render, d, t))
    ensures forall h :: h in AddTurn(render, d, t).byHash
              <==> h in d.byHash || exists i :: 0 <= i < |t.chain| && t.chain[i].hash == h
  {
    NodesKept(render, Booked(d, t), t, |t.chain|);
  }

  /** The first position of a hash in a chain. */
  lemma FirstPosition(chain: seq<ChainNode>, h: Hash, n: nat) returns (i: nat)
    requires n < |chain| && chain[n].hash == h
    ensures i <= n && chain[i].hash == h && forall j | 0 <= j < i :: chain[j].hash != h
  {
    if j :| 0 <= j < n && chain[j].hash == h {
      i := FirstPosition(chain, h, j);
    } else {
      i := n;
    }
  }

  lemma TurnResolves(render: Renderer, d: Derived, t: ChainTurn)
    requires Consistent(d) && t.chain != []
    ensures AllResolved(AddTurn(render, d, t)) && forall s | s in AddTurn(render, d, t).sources :: s.chain != []
  {
    hide AddTurn, NewOnce, Introduced, SourceOf;
    var e, src := AddTurn(render, d, t), SourceOf(render, d, t);
    SourceShape(render, d, t, 0);
    TurnByHash(render, d, t);
    forall s | s in e.sources ensures Resolved(e, s) && s.chain != [] {
      if s in d.sources {
        assert Resolved(d, s);
      } else {
        forall h | h in s.chain ensures h in e.byHash {
          var i :| 0 <= i < |s.chain| && s.chain[i] == h;
          SourceShape(render, d, t, i);
        }
      }
    }
  }

  lemma TurnNewOnce(render: Renderer, d: Derived, t: ChainTurn)
    requires Consistent(d) && t.chain != []
    ensures NewOnce(AddTurn(render, d, t).sources)
  {
    hide AddTurn, Introduced, SourceOf;
    var src := SourceOf(render, d, t);
    var n, all := |d.sources|, d.sources + [src];
    SourceShape(render, d, t, 0);
    forall k, i, l, j, h | 0 <= k < |all| && 0 <= l < |all| && NewAt(all[k], i, h) && NewAt(all[l], j, h)
      ensures k == l && i == j
    {
      if k == n { SourceShape(render, d, t, i); }
      if l == n { SourceShape(render, d, t, j); }
      if k < n { assert Resolved(d, all[k]); }
      if l < n { assert Resolved(d, all[l]); }
    }
  }

  lemma TurnIntroduces(render: Renderer, d: Derived, t: ChainTurn, h: Hash)
    requires Consistent(d) && t.chain != [] && h in AddTurn(render, d, t).byHash
    ensures Introduced(AddTurn(render, d, t).sources, h)
  {
    hide AddTurn, NewOnce, AllResolved, SourceOf;
    var src := SourceOf(render, d, t);
    var all := d.sources + [src];
    SourceShape(render, d, t, 0);
    TurnByHash(render, d, t);
    if h in d.byHash {
      var k, i :| 0 <= k < |d.sources| && NewAt(d.sources[k], i, h);
      assert all[k] == d.sources[k];
    } else {
      var n :| 0 <= n < |t.chain| && t.chain[n].hash == h;
      var i := FirstPosition(t.chain, h, n);
      SourceShape(render, d, t, i);
      assert NewAt(all[|d.sources|], i, h);
    }
  }

  /** The kept node of a hash carries that hash. */
  lemma {:induction false} NodesNamed(render: Renderer, d: Derived, t: ChainTurn, n: nat, h: Hash)
    requires n <= |t.chain| && (h in d.byHash ==> d.byHash[h].node.hash == h)
    ensures h in AddNodes(render, d, t, n).byHash ==> AddNodes(render, d, t, n).byHash[h].node.hash == h
  {
    if n > 0 { NodesNamed(render, d, t, n - 1, h); }
  }

  lemma TurnConsistent(render: Renderer, d: Derived, t: ChainTurn)
    requires Consistent(d)
    ensures Consistent(AddTurn(render, d, t))
  {
    if t.chain == [] { return; }
    TurnResolves(render, d, t);
    TurnNewOnce(render, d, t);
    var e := AddTurn(render, d, t);
    forall h | h in e.byHash ensures Introduced(e.sources, h) && e.byHash[h].node.hash == h {
      TurnIntroduces(render, d, t, h);
      NodesNamed(render, Booked(d, t), t, |t.chain|, h);
    }
    hide AddTurn, NewOnce, AllResolved, Introduced;
    SourceShape(render, d, t, 0);
    assert forall s | s in e.sources :: s.chain != [] by { TurnResolves(render, d, t); }
  }

  /** For every sequence of calls, each retained node is new at exactly one position of
      exactly one call. */
  lemma {:induction false} NewExactlyOnce(render: Renderer, turns: seq<ChainTurn>)
    ensures Consistent(Derive(render, turns))
  {
    if turns != [] {
      hide Consistent, AddTurn;
      NewExactlyOnce(render, turns[..|turns| - 1]);
      TurnConsistent(render, Derive(render, turns[..|turns| - 1]), turns[|turns| - 1]);
    }
  }
}
