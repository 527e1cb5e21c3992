/** What the llm spans of the finished walk show as input: each one the fresh blocks of the
    one call it stands for, and no node's blocks twice. */
module SpanInputs {
  import opened Llm
  import opened DeriveModel
  import DeriverModel
  import Dedup
  import opened DerivedCalls
  import opened SpanModel
  import opened SpanTotals
  import SpanWalk
  import SpanSoundness

  // ---------------------------------------------------------------- one call behind each span

  ghost predicate LlmAt(turns: seq<Turn>, t: nat, k: nat) {
    t < |turns| && k < |turns[t].spans| && turns[t].spans[k].fixed.kind == LlmSpan
  }

  /** Call i is the one the span stands for, and its input is what the span stores. */
  ghost predicate Owns(calls: seq<Call>, i: nat, s: Session, f: Fixed) {
    && i < |calls| && calls[i].chain != [] && calls[i].session == s
    && f.id == LlmCall(Identity(calls[i])) && f.input == InputOf(calls[i])
  }

  predicate Counting(m: Measure) { m.LlmSpansOf? || m.LlmShowing? }

  lemma {:induction false} SumAtLeast(spans: seq<Span>, m: Measure, k: nat)
    requires Counting(m)
    ensures SumSpans(spans, m) >= 0
    ensures k < |spans| ==> SumSpans(spans, m) >= SpanWeight(m, spans[k].fixed)
  {
    if spans != [] {
      SumAtLeast(spans[..|spans| - 1], m, k);
    }
  }

  lemma {:induction false} SumAtLeastTwo(spans: seq<Span>, m: Measure, j: nat, k: nat)
    requires Counting(m) && j < k < |spans|
    ensures SumSpans(spans, m) >= SpanWeight(m, spans[j].fixed) + SpanWeight(m, spans[k].fixed)
  {
    hide SpanWeight;
    var n := |spans| - 1;
    if k == n {
      SumAtLeast(spans[..n], m, j);
    } else {
      SumAtLeastTwo(spans[..n], m, j, k);
      CountsUp(m, spans[n].fixed);
    }
  }

  lemma CountsUp(m: Measure, f: Fixed)
    requires Counting(m)
    ensures 0 <= SpanWeight(m, f) <= 1
  {
  }

  lemma {:induction false} TotalAtLeast(turns: seq<Turn>, s: Session, m: Measure, t: nat, k: nat)
    requires Counting(m)
    ensures SessionTotal(turns, s, m) >= 0
    ensures t < |turns| && k < |turns[t].spans| && turns[t].session == s ==>
              SessionTotal(turns, s, m) >= SpanWeight(m, turns[t].spans[k].fixed)
  {
    hide SpanWeight, SumSpans;
    if turns != [] {
      var n := |turns| - 1;
      TotalAtLeast(turns[..n], s, m, t, k);
      SumAtLeast(turns[n].spans, m, k);
    }
  }

  lemma {:induction false} TotalAtLeastTwo(turns: seq<Turn>, s: Session, m: Measure, t: nat, j: nat, u: nat, k: nat)
    requires Counting(m) && t <= u < |turns| && j < |turns[t].spans| && k < |turns[u].spans| && (t == u ==> j < k)
    requires turns[t].session == s && turns[u].session == s
    ensures SessionTotal(turns, s, m) >= SpanWeight(m, turns[t].spans[j].fixed) + SpanWeight(m, turns[u].spans[k].fixed)
  {
    hide SpanWeight, SumSpans;
    var n := |turns| - 1;
    SumAtLeast(turns[n].spans, m, k);
    if u < n {
      TotalAtLeastTwo(turns[..n], s, m, t, j, u, k);
    } else if t == u {
      SumAtLeastTwo(turns[n].spans, m, j, k);
      TotalAtLeast(turns[..n], s, m, t, j);
    } else {
      TotalAtLeast(turns[..n], s, m, t, j);
    }
  }

  lemma {:induction false} CountedCall(calls: seq<Call>, s: Session, m: Measure) returns (i: nat)
    requires Counting(m) && SumCalls(calls, s, m) > 0
    ensures i < |calls| && calls[i].chain != [] && calls[i].session == s && CallWeight(m, calls[i]) == 1
  {
    hide InputOf;
    var n := |calls| - 1;
    if Share(calls[n], s, m) > 0 {
      i := n;
    } else {
      i := CountedCall(calls[..n], s, m);
    }
  }

  /** Every llm span of the walk stores the input of a call with its id, in its session. */
  lemma SpanHasOwner(calls: seq<Call>, t: nat, k: nat) returns (i: nat)
    requires SpanWalk.Separate(calls) && WellFormed(calls) && LlmAt(Walk(calls).turns, t, k)
    ensures Owns(calls, i, Walk(calls).turns[t].session, Walk(calls).turns[t].spans[k].fixed)
  {
    hide Walk, SessionTotal, SumCalls, SpanWalk.Separate, InputOf;
    var turns := Walk(calls).turns;
    var f, s := turns[t].spans[k].fixed, turns[t].session;
    assert f.id.LlmCall? by { LlmSpansAreNamed(calls, t, k); }
    var m := LlmShowing(f.id.call, f.input);
    TotalAtLeast(turns, s, m, t, k);
    SpendConserved(calls, s, m);
    i := CountedCall(calls, s, m);
  }

  lemma LlmSpansAreNamed(calls: seq<Call>, t: nat, k: nat)
    requires SpanWalk.Separate(calls) && WellFormed(calls) && LlmAt(Walk(calls).turns, t, k)
    ensures Walk(calls).turns[t].spans[k].fixed.id.LlmCall?
  {
    hide Walk, Valid, SpanSoundness.Linked, SpanSoundness.Fed, SpanSoundness.Trees, SpanWalk.Separate, SpanSoundness.UniqueIds;
    SpanWalk.WalkSound(calls);
    var em := Walk(calls);
    var used :| SpanSoundness.Sound(em, SpanWalk.Rest(used));
    assert SpanSoundness.NamedTurn(em, t, em.turns[t], used);
  }

  /** Different llm spans stand for different calls. */
  lemma OwnersDiffer(calls: seq<Call>, t: nat, j: nat, u: nat, k: nat, a: nat, b: nat)
    requires SpanWalk.Separate(calls) && Emittable(calls) && LlmAt(Walk(calls).turns, t, j) && LlmAt(Walk(calls).turns, u, k)
    requires t < u || (t == u && j < k)
    requires var turns := Walk(calls).turns;
             Owns(calls, a, turns[t].session, turns[t].spans[j].fixed) && Owns(calls, b, turns[u].session, turns[u].spans[k].fixed)
    ensures a != b
  {
    hide Walk, SessionTotal, InputOf;
    if a == b {
      var m := LlmSpansOf(Identity(calls[a]));
      OneLlmSpanPerCall(calls, a) by { IdentitiesApart(calls, a); }
      TotalAtLeastTwo(Walk(calls).turns, calls[a].session, m, t, j, u, k);
    }
  }

  lemma IdentitiesApart(calls: seq<Call>, i: nat)
    requires SpanWalk.Separate(calls) && Emittable(calls) && i < |calls|
    ensures forall j | 0 <= j < |calls| && j != i && calls[j].chain != [] :: Identity(calls[j]) != Identity(calls[i])
  {
    forall j | 0 <= j < |calls| && j != i && calls[j].chain != [] ensures Identity(calls[j]) != Identity(calls[i]) {
      assert SpanWalk.Apart(calls[if i < j then i else j], calls[if i < j then j else i]);
    }
  }

  // ---------------------------------------------------------------- no node twice

  /** The nodes a call shows below position n. */
  function ShownBelow(c: Call, n: nat): seq<Hash>
    requires c.Valid() && n <= |c.chain|
  {
    if n == 0 then []
    else if FreshUser(c, n - 1) then ShownBelow(c, n - 1) + [c.chain[n - 1].hash]
    else ShownBelow(c, n - 1)
  }

  function ShownBy(c: Call): seq<Hash>
    requires c.Valid() && c.chain != []
  {
    if Summarises(c) then [] else ShownBelow(c, |c.chain| - 1)
  }

  /** The blocks of the given nodes, tool results left out. */
  ghost function BlocksOf(byHash: map<Hash, DeriverModel.Kept>, hs: seq<Hash>): seq<ContentBlock>
    requires forall h | h in hs :: h in byHash
  {
    if hs == [] then []
    else BlocksOf(byHash, hs[..|hs| - 1]) + DropResults(byHash[hs[|hs| - 1]].node.bucket.content)
  }

  ghost predicate NoRepeats(hs: seq<Hash>) {
    forall i, j | 0 <= i < j < |hs| :: hs[i] != hs[j]
  }

  ghost predicate Disjoint(xs: seq<Hash>, ys: seq<Hash>) {
    forall h | h in xs :: h !in ys
  }

  lemma {:induction false} ShownIsFresh(c: Call, n: nat, h: Hash) returns (i: nat)
    requires c.Valid() && n <= |c.chain| && h in ShownBelow(c, n)
    ensures i < n && FreshUser(c, i) && c.chain[i].hash == h
  {
    hide FreshUser;
    if FreshUser(c, n - 1) && c.chain[n - 1].hash == h {
      i := n - 1;
    } else {
      i := ShownIsFresh(c, n - 1, h);
    }
  }

  lemma {:induction false} InputIsShown(d: DeriverModel.Derived, k: nat, n: nat)
    requires Dedup.Consistent(d) && |Calls(d)| == |d.sources| && k < |d.sources| && Calls(d)[k].Valid() && n <= |Calls(d)[k].chain|
    ensures forall h | h in ShownBelow(Calls(d)[k], n) :: h in d.byHash
    ensures InputBelow(Calls(d)[k], n) == BlocksOf(d.byHash, ShownBelow(Calls(d)[k], n))
  {
    hide Dedup.Consistent, Calls, FreshUser, DropResults;
    if n > 0 {
      var c := Calls(d)[k];
      InputIsShown(d, k, n - 1);
      CallAt(d, k);
      HashAt(d, k, n - 1);
      var hs := ShownBelow(c, n - 1);
      assert (hs + [c.chain[n - 1].hash])[..|hs|] == hs;
    }
  }

  lemma {:induction false} ShownOnce(d: DeriverModel.Derived, k: nat, n: nat)
    requires Dedup.Consistent(d) && |Calls(d)| == |d.sources| && k < |d.sources| && Calls(d)[k].Valid() && n <= |Calls(d)[k].chain|
    ensures NoRepeats(ShownBelow(Calls(d)[k], n))
  {
    hide Dedup.Consistent, Calls;
    if n > 0 {
      var c := Calls(d)[k];
      ShownOnce(d, k, n - 1);
      if FreshUser(c, n - 1) && c.chain[n - 1].hash in ShownBelow(c, n - 1) {
        var i := ShownIsFresh(c, n - 1, c.chain[n - 1].hash);
        NewHashesAreApart(d, k, i, k, n - 1);
      }
    }
  }

  lemma ShownApart(d: DeriverModel.Derived, k: nat, l: nat)
    requires Dedup.Consistent(d) && |Calls(d)| == |d.sources| && k < |d.sources| && l < |d.sources| && k != l
    requires Emittable(Calls(d))
    ensures Disjoint(ShownBy(Calls(d)[k]), ShownBy(Calls(d)[l]))
  {
    hide Dedup.Consistent, Calls;
    var a, b := Calls(d)[k], Calls(d)[l];
    forall h | h in ShownBy(a) ensures h !in ShownBy(b) {
      var i := ShownIsFresh(a, |a.chain| - 1, h);
      if h in ShownBy(b) {
        var j := ShownIsFresh(b, |b.chain| - 1, h);
        NewHashesAreApart(d, k, i, l, j);
      }
    }
  }

  /** The input is the blocks of the nodes hs, each once. */
  ghost predicate Shows(byHash: map<Hash, DeriverModel.Kept>, input: seq<ContentBlock>, hs: seq<Hash>) {
    NoRepeats(hs) && (forall h | h in hs :: h in byHash) && input == BlocksOf(byHash, hs)
  }

  /** The span stands for call i and stores the blocks of that call's fresh user nodes. */
  ghost predicate Stores(d: DeriverModel.Derived, i: nat, s: Session, f: Fixed)
    requires Dedup.Consistent(d)
  {
    && Owns(Calls(d), i, s, f) && Calls(d)[i].Valid()
    && Shows(d.byHash, f.input, ShownBy(Calls(d)[i]))
  }

  lemma OwnedStores(d: DeriverModel.Derived, i: nat, s: Session, f: Fixed)
    requires Dedup.Consistent(d) && |Calls(d)| == |d.sources| && Emittable(Calls(d)) && Owns(Calls(d), i, s, f)
    ensures Calls(d)[i].Valid() && Stores(d, i, s, f)
  {
    hide Dedup.Consistent, Calls, ShownBelow, InputBelow;
    var c := Calls(d)[i];
    assert c in Calls(d);
    InputIsShown(d, i, |c.chain| - 1);
    ShownOnce(d, i, |c.chain| - 1);
    assert BlocksOf(d.byHash, []) == [];
  }

  /** No two llm spans show a node's blocks, and none shows them twice: the inputs stored in
      the walk are the blocks of disjoint lists of nodes. */
  lemma InputShownOnce(d: DeriverModel.Derived, t: nat, j: nat, u: nat, k: nat) returns (a: nat, b: nat)
    requires Dedup.Consistent(d) && |Calls(d)| == |d.sources| && DistinctIdentities(d)
    requires WellFormed(Calls(d)) && LlmAt(Walk(Calls(d)).turns, t, j) && LlmAt(Walk(Calls(d)).turns, u, k)
    requires t < u || (t == u && j < k)
    ensures var turns := Walk(Calls(d)).turns;
            && a != b && Stores(d, a, turns[t].session, turns[t].spans[j].fixed)
            && Stores(d, b, turns[u].session, turns[u].spans[k].fixed)
            && Disjoint(ShownBy(Calls(d)[a]), ShownBy(Calls(d)[b]))
  {
    hide Dedup.Consistent, Calls, Walk, SpanWalk.Separate, Owns, DistinctIdentities, Stores, ShownBy, Disjoint;
    var calls := Calls(d);
    DerivedCallsAreSeparate(d);
    assert Emittable(calls) by { DerivedCallsSpeak(d); }
    var turns := Walk(calls).turns;
    a := SpanHasOwner(calls, t, j);
    b := SpanHasOwner(calls, u, k);
    OwnersDiffer(calls, t, j, u, k, a, b);
    OwnedStores(d, a, turns[t].session, turns[t].spans[j].fixed);
    OwnedStores(d, b, turns[u].session, turns[u].spans[k].fixed);
    OwnersAreCalls(calls, a, turns[t].session, turns[t].spans[j].fixed);
    OwnersAreCalls(calls, b, turns[u].session, turns[u].spans[k].fixed);
    ShownApart(d, a, b);
  }

  lemma OwnersAreCalls(calls: seq<Call>, i: nat, s: Session, f: Fixed)
    requires Owns(calls, i, s, f)
    ensures i < |calls|
  {
  }

  lemma DerivedCallsSpeak(d: DeriverModel.Derived)
    requires Dedup.Consistent(d)
    ensures Emittable(Calls(d))
  {
    hide Dedup.Consistent, Calls;
    CountCalls(d);
    forall c | c in Calls(d) ensures c.Valid() && c.chain != [] {
      var k :| 0 <= k < |Calls(d)| && Calls(d)[k] == c;
      CallAt(d, k);
    }
  }
}
