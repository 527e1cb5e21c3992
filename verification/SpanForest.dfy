/** The shape of what finish hands out: after sorting, every trace is still one tree of named
    spans and every link still has its ends. */
module SpanForest {
  import opened Llm
  import opened DeriveModel
  import opened SpanModel
  import opened SpanSoundness
  import SpanWalk
  import SpanFinish
  import SpanTotals

  /** Span i hangs off a span of lower rank. */
  ghost predicate HangsAt(spans: seq<Span>, rank: map<SpanId, nat>, i: nat)
    requires i < |spans|
  {
    && spans[i].fixed.id in rank
    && spans[i].fixed.parent.Some? && HasId(spans, |spans|, spans[i].fixed.parent.value)
    && spans[i].fixed.parent.value in rank && rank[spans[i].fixed.parent.value] < rank[spans[i].fixed.id]
  }

  ghost predicate Ranked(spans: seq<Span>, rank: map<SpanId, nat>) {
    forall i | 0 < i < |spans| :: HangsAt(spans, rank, i)
  }

  /** One root, at index 0, from which every span is reached by parents; no id twice. */
  ghost predicate Tree(spans: seq<Span>) {
    && spans != [] && spans[0].fixed.parent == None && spans[0].fixed.kind == AgentSpan
    && UniqueIds(spans) && exists rank :: Ranked(spans, rank)
  }

  ghost predicate Inside(turn: Turn, l: Link) {
    EndIn(turn, End(l.fromTrace, l.fromSpan)) && EndIn(turn, End(l.toTrace, l.toSpan))
  }

  /** Links kept on a trace stay inside it; links kept on the set cross from one trace to
      another. */
  ghost predicate Forest(turns: seq<Turn>, cross: seq<Link>) {
    && DistinctTraces(turns)
    && (forall t | 0 <= t < |turns| :: Tree(turns[t].spans))
    && (forall t, l | 0 <= t < |turns| && l in turns[t].links :: Inside(turns[t], l))
    && (forall l | l in cross ::
          l.fromTrace != l.toTrace && EndExists(turns, End(l.fromTrace, l.fromSpan)) && EndExists(turns, End(l.toTrace, l.toSpan)))
  }

  // ---------------------------------------------------------------- permuted spans

  lemma {:induction false} OnceEach(s: seq<Span>, x: Span)
    requires UniqueIds(s)
    ensures multiset(s)[x] <= 1
  {
    if s != [] {
      var n := |s| - 1;
      assert s == s[..n] + [s[n]];
      OnceEach(s[..n], x);
      assert forall i | 0 <= i < n :: s[..n][i] == s[i] && s[i].fixed.id != s[n].fixed.id;
    }
  }

  lemma TwicePlaced(s: seq<Span>, i: nat, j: nat)
    requires i < j < |s| && s[i] == s[j]
    ensures multiset(s)[s[i]] >= 2
  {
    assert s == s[..j] + [s[j]] + s[j + 1..];
    assert s[i] in s[..j];
  }

  /** A permutation of spans with distinct ids has distinct ids. */
  lemma PermutedIds(a: seq<Span>, b: seq<Span>)
    requires UniqueIds(a) && multiset(a) == multiset(b)
    ensures UniqueIds(b)
  {
    forall i, j | 0 <= i < j < |b| ensures b[i].fixed.id != b[j].fixed.id {
      assert b[i] in multiset(a) && b[j] in multiset(a);
      var x :| 0 <= x < |a| && a[x] == b[i];
      var y :| 0 <= y < |a| && a[y] == b[j];
      if b[i] == b[j] {
        OnceEach(a, b[i]);
        TwicePlaced(b, i, j);
      }
    }
  }

  lemma PermutedHas(a: seq<Span>, b: seq<Span>, id: SpanId)
    requires multiset(a) == multiset(b) && HasId(a, |a|, id)
    ensures HasId(b, |b|, id)
  {
    var i :| 0 <= i < |a| && a[i].fixed.id == id;
    assert a[i] in multiset(b);
    var j :| 0 <= j < |b| && b[j] == a[i];
  }

  lemma WalkedIsRanked(spans: seq<Span>)
    requires UniqueIds(spans) && forall i | 0 < i < |spans| :: ParentBefore(spans, i)
    ensures exists rank :: Ranked(spans, rank)
  {
    var rank: map<SpanId, nat> := map i | 0 <= i < |spans| :: spans[i].fixed.id := i;
    forall i | 0 <= i < |spans| ensures spans[i].fixed.id in rank && rank[spans[i].fixed.id] == i {
    }
    forall i | 0 < i < |spans|
      ensures HangsAt(spans, rank, i)
    {
      assert ParentBefore(spans, i);
      var j :| 0 <= j < i && spans[j].fixed.id == spans[i].fixed.parent.value;
    }
    assert Ranked(spans, rank);
  }

  /** Sorting all but the root keeps a tree, and all ids. */
  lemma SortedTree(a: seq<Span>, b: seq<Span>)
    requires Tree(a) && b != [] && b[0].fixed == a[0].fixed && multiset(b[1..]) == multiset(a[1..])
    ensures Tree(b) && forall id | HasId(a, |a|, id) :: HasId(b, |b|, id)
  {
    var a0, b0 := [b[0]] + a[1..], b;
    assert b0 == [b[0]] + b[1..];
    assert multiset(a0) == multiset(b0);
    assert UniqueIds(a0) by {
      forall i, j | 0 <= i < j < |a0| ensures a0[i].fixed.id != a0[j].fixed.id {
        assert a0[i].fixed == a[i].fixed && a0[j].fixed == a[j].fixed;
      }
    }
    PermutedIds(a0, b0);
    forall id | HasId(a, |a|, id) ensures HasId(b, |b|, id) {
      var i :| 0 <= i < |a| && a[i].fixed.id == id;
      assert a0[i].fixed.id == id;
      PermutedHas(a0, b0, id);
    }
    var rank :| Ranked(a, rank);
    assert Ranked(b, rank) by {
      forall i | 0 < i < |b|
        ensures HangsAt(b, rank, i)
      {
        assert b[1..][i - 1] == b[i] && b[i] in multiset(a[1..]);
        var j :| 0 <= j < |a[1..]| && a[1..][j] == b[i];
        assert a[j + 1] == b[i] && HangsAt(a, rank, j + 1);
      }
    }
  }

  // ---------------------------------------------------------------- the finished walk

  lemma WalkIsForest(calls: seq<Call>)
    requires SpanWalk.Separate(calls) && WellFormed(calls)
    ensures Forest(Walk(calls).turns, Walk(calls).cross)
  {
    hide Walk, Valid, Fed, SpanWalk.Separate, NamedTurn, UniqueIds, HasId, EndIn, EndExists;
    SpanWalk.WalkSound(calls);
    SpanWalk.LinksHaveEnds(calls);
    var em := Walk(calls);
    forall t | 0 <= t < |em.turns| ensures Tree(em.turns[t].spans) {
      assert Rooted(em.turns[t]);
      WalkedIsRanked(em.turns[t].spans);
    }
    forall t, l | 0 <= t < |em.turns| && l in em.turns[t].links ensures Inside(em.turns[t], l) {
      var i :| 0 <= i < |em.turns[t].links| && em.turns[t].links[i] == l;
    }
  }

  lemma FinishedTurn(turn: Turn)
    requires Tree(turn.spans)
    ensures var f := SpanFinish.FinishTurn(turn).turn;
            && f.traceId == turn.traceId && f.links == turn.links && Tree(f.spans)
            && forall id | HasId(turn.spans, |turn.spans|, id) :: HasId(f.spans, |f.spans|, id)
  {
    SpanFinish.FinishTurnMeans(turn, SpanTotals.LlmSpans);
    hide SpanFinish.Ordered, Tree, HasId, SpanFinish.LatestEnd;
    SortedTree(turn.spans, SpanFinish.FinishTurn(turn).turn.spans);
  }

  /** The finished traces of a forest are a forest. */
  lemma FinishedForest(turns: seq<Turn>, done: seq<Turn>, cross: seq<Link>)
    requires Forest(turns, cross) && |done| == |turns|
    requires forall t | 0 <= t < |turns| :: turns[t].spans != [] && done[t] == SpanFinish.FinishTurn(turns[t]).turn
    ensures Forest(done, cross)
  {
    hide Tree, HasId, SpanFinish.FinishTurn;
    forall t | 0 <= t < |turns|
      ensures done[t].traceId == turns[t].traceId && done[t].links == turns[t].links && Tree(done[t].spans)
      ensures forall id | HasId(turns[t].spans, |turns[t].spans|, id) :: HasId(done[t].spans, |done[t].spans|, id)
    {
      FinishedTurn(turns[t]);
    }
    forall e | EndExists(turns, e) ensures EndExists(done, e) {
      var t :| 0 <= t < |turns| && EndIn(turns[t], e);
      assert EndIn(done[t], e);
    }
  }

  ghost function TurnsOf(done: seq<SpanFinish.Finished>): (r: seq<Turn>)
    ensures |r| == |done| && forall t | 0 <= t < |done| :: r[t] == done[t].turn
  {
    seq(|done|, t requires 0 <= t < |done| => done[t].turn)
  }

  lemma {:induction false} FinishAllAt(turns: seq<Turn>, t: nat)
    requires NoEmptyTurn(turns) && t < |turns|
    ensures |SpanFinish.FinishAll(turns)| == |turns| && SpanFinish.FinishAll(turns)[t] == SpanFinish.FinishTurn(turns[t])
  {
    hide SpanFinish.FinishTurn;
    SpanFinish.FinishAllLength(turns);
    SpanFinish.FinishAllLength(turns[..|turns| - 1]);
    if t < |turns| - 1 { FinishAllAt(turns[..|turns| - 1], t); }
  }

  /** What the emitter hands out for separate calls: trees with distinct ids, trace ids that
      identify, and links with both ends present. */
  lemma FinishedWalkIsForest(calls: seq<Call>)
    requires SpanWalk.Separate(calls) && WellFormed(calls)
    ensures NoEmptyTurn(Walk(calls).turns)
    ensures Forest(TurnsOf(SpanFinish.FinishAll(Walk(calls).turns)), Walk(calls).cross)
  {
    hide Walk, SpanWalk.Separate, SpanFinish.FinishTurn, SpanFinish.FinishAll, Forest;
    var turns := Walk(calls).turns;
    SpanFinish.FinishAllLength(turns);
    forall t | 0 <= t < |turns| ensures SpanFinish.FinishAll(turns)[t] == SpanFinish.FinishTurn(turns[t]) {
      FinishAllAt(turns, t);
    }
    WalkIsForest(calls);
    FinishedForest(turns, TurnsOf(SpanFinish.FinishAll(turns)), Walk(calls).cross);
  }
}
