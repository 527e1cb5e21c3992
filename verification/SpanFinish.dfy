/** finish: presentation order, per-trace rollups and the per-model spend fold. */
module SpanFinish {
  import opened Llm
  import opened DeriveModel
  import opened SpanModel
  import opened SpanTotals

  /** Token totals of one trace. */
  datatype Rollup = Rollup(
    prompt: int,
    completion: int,
    cacheRead: int,
    cacheCreation: int,
    mainPrompt: int,
    mainCompletion: int,
    toolCalls: int)

  datatype ModelUse = ModelUse(calls: int, prompt: int, completion: int)

  datatype Finished = Finished(turn: Turn, rollup: Rollup)

  // ---------------------------------------------------------------- the stable sort

  /** Insertion after every span that starts no later. */
  function Insert(s: seq<Span>, sp: Span): seq<Span> {
    if s == [] || s[|s| - 1].fixed.startedAt <= sp.fixed.startedAt then s + [sp]
    else Insert(s[..|s| - 1], sp) + [s[|s| - 1]]
  }

  /** sort.SliceStable by start time. */
  function StableSort(s: seq<Span>): seq<Span> {
    if s == [] then [] else Insert(StableSort(s[..|s| - 1]), s[|s| - 1])
  }

  ghost predicate Sorted(s: seq<Span>) {
    forall i, j | 0 <= i < j < |s| :: s[i].fixed.startedAt <= s[j].fixed.startedAt
  }

  /** The spans that start at one instant, in order. */
  ghost function StartingAt(s: seq<Span>, at: int): seq<Span> {
    if s == [] then []
    else StartingAt(s[..|s| - 1], at) + (if s[|s| - 1].fixed.startedAt == at then [s[|s| - 1]] else [])
  }

  lemma SortedSnoc(s: seq<Span>, last: Span)
    requires Sorted(s) && forall x | x in multiset(s) :: x.fixed.startedAt <= last.fixed.startedAt
    ensures Sorted(s + [last])
  {
    forall i | 0 <= i < |s| ensures s[i].fixed.startedAt <= last.fixed.startedAt {
      assert s[i] in multiset(s);
    }
  }

  lemma SortedLast(s: seq<Span>)
    requires Sorted(s) && s != []
    ensures Sorted(s[..|s| - 1]) && forall x | x in multiset(s) :: x.fixed.startedAt <= s[|s| - 1].fixed.startedAt
  {
    forall x | x in multiset(s) ensures x.fixed.startedAt <= s[|s| - 1].fixed.startedAt {
      var i :| 0 <= i < |s| && s[i] == x;
    }
  }

  lemma {:induction false} InsertSorted(s: seq<Span>, sp: Span)
    requires Sorted(s)
    ensures Sorted(Insert(s, sp)) && multiset(Insert(s, sp)) == multiset(s) + multiset{sp}
  {
    hide Sorted;
    if s == [] {
      SortedSnoc([], sp) by { NothingToSort(0); }
    } else {
      var rest, last := s[..|s| - 1], s[|s| - 1];
      SortedLast(s);
      assert s == rest + [last];
      if last.fixed.startedAt <= sp.fixed.startedAt {
        SortedSnoc(s, sp);
      } else {
        InsertSorted(rest, sp);
        assert forall x | x in multiset(rest) :: x in multiset(s);
        SortedSnoc(Insert(rest, sp), last);
      }
    }
  }

  lemma StartingAtSnoc(s: seq<Span>, x: Span, at: int)
    ensures StartingAt(s + [x], at) == StartingAt(s, at) + (if x.fixed.startedAt == at then [x] else [])
  {
    assert (s + [x])[..|s|] == s;
  }

  lemma {:induction false} InsertStable(s: seq<Span>, sp: Span, at: int)
    requires Sorted(s)
    ensures StartingAt(Insert(s, sp), at)
         == StartingAt(s, at) + (if sp.fixed.startedAt == at then [sp] else [])
  {
    hide StartingAt;
    if s == [] || s[|s| - 1].fixed.startedAt <= sp.fixed.startedAt {
      StartingAtSnoc(s, sp, at);
    } else {
      var rest, last := s[..|s| - 1], s[|s| - 1];
      InsertStable(rest, sp, at);
      assert s == rest + [last];
      StartingAtSnoc(rest, last, at);
      StartingAtSnoc(Insert(rest, sp), last, at);
    }
  }

  lemma NothingToSort(at: int)
    ensures Sorted([]) && StartingAt([], at) == []
  {
  }

  /** Time order, nothing lost or invented, and walk order kept at equal instants. */
  lemma {:induction false} SortIsStable(s: seq<Span>, at: int)
    ensures Sorted(StableSort(s)) && multiset(StableSort(s)) == multiset(s)
    ensures StartingAt(StableSort(s), at) == StartingAt(s, at)
  {
    hide Sorted, StartingAt, Insert;
    if s == [] {
      NothingToSort(at);
    } else {
      var rest, last := s[..|s| - 1], s[|s| - 1];
      SortIsStable(rest, at);
      InsertSorted(StableSort(rest), last);
      InsertStable(StableSort(rest), last, at);
      assert s == rest + [last];
      StartingAtSnoc(rest, last, at);
    }
  }

  lemma SumSnoc(s: seq<Span>, x: Span, m: Measure)
    ensures SumSpans(s + [x], m) == SumSpans(s, m) + SpanWeight(m, x.fixed)
  {
    hide SpanWeight;
    assert (s + [x])[..|s|] == s;
  }

  lemma {:induction false} InsertSum(s: seq<Span>, sp: Span, m: Measure)
    ensures SumSpans(Insert(s, sp), m) == SumSpans(s, m) + SpanWeight(m, sp.fixed)
  {
    hide SumSpans, SpanWeight;
    if s == [] || s[|s| - 1].fixed.startedAt <= sp.fixed.startedAt {
      SumSnoc(s, sp, m);
    } else {
      var rest, last := s[..|s| - 1], s[|s| - 1];
      InsertSum(rest, sp, m);
      assert s == rest + [last];
      SumSnoc(rest, last, m);
      SumSnoc(Insert(rest, sp), last, m);
    }
  }

  lemma {:induction false} SortSum(s: seq<Span>, m: Measure)
    ensures SumSpans(StableSort(s), m) == SumSpans(s, m)
  {
    hide SpanWeight;
    if s != [] {
      SortSum(s[..|s| - 1], m);
      InsertSum(StableSort(s[..|s| - 1]), s[|s| - 1], m);
    }
  }

  lemma {:induction false} SumAppend(a: seq<Span>, b: seq<Span>, m: Measure)
    ensures SumSpans(a + b, m) == SumSpans(a, m) + SumSpans(b, m)
  {
    hide SpanWeight;
    if b == [] {
      assert a + b == a;
    } else {
      var n := |b| - 1;
      assert (a + b)[..|a| + n] == a + b[..n];
      SumAppend(a, b[..n], m);
    }
  }

  // ---------------------------------------------------------------- one trace

  /** The root stays first; the rest is in time order. */
  function Ordered(spans: seq<Span>): seq<Span>
    requires spans != []
  {
    [spans[0]] + StableSort(spans[1..])
  }

  function LatestEnd(spans: seq<Span>, from: int): int {
    if spans == [] then from
    else Max(LatestEnd(spans[..|spans| - 1], from), SpanEnd(spans[|spans| - 1]))
  }

  ghost function RollupOf(spans: seq<Span>): Rollup {
    Rollup(SumSpans(spans, Prompt), SumSpans(spans, Completion), SumSpans(spans, CacheRead),
           SumSpans(spans, CacheCreation), SumSpans(spans, MainPrompt), SumSpans(spans, MainCompletion),
           SumSpans(spans, ToolSpans))
  }

  ghost function FinishTurn(turn: Turn): Finished
    requires turn.spans != []
  {
    var spans := Ordered(turn.spans);
    var end := LatestEnd(spans, turn.endedAt);
    var root := spans[0].(duration := if spans[0].fixed.kind == AgentSpan then end - turn.startedAt else spans[0].duration);
    Finished(turn.(spans := [root] + spans[1..], endedAt := end), RollupOf(spans))
  }

  lemma OrderedSum(spans: seq<Span>, m: Measure)
    requires spans != []
    ensures SumSpans(Ordered(spans), m) == SumSpans(spans, m)
  {
    assert spans == [spans[0]] + spans[1..];
    SumAppend([spans[0]], StableSort(spans[1..]), m);
    SumAppend([spans[0]], spans[1..], m);
    SortSum(spans[1..], m);
  }

  lemma {:induction false} LatestEndCovers(spans: seq<Span>, from: int)
    ensures from <= LatestEnd(spans, from)
    ensures forall i | 0 <= i < |spans| :: SpanEnd(spans[i]) <= LatestEnd(spans, from)
  {
    if spans != [] { LatestEndCovers(spans[..|spans| - 1], from); }
  }

  lemma {:induction false} LatestEndIsReached(spans: seq<Span>, from: int)
    ensures LatestEnd(spans, from) == from || exists sp :: sp in spans && SpanEnd(sp) == LatestEnd(spans, from)
  {
    if spans != [] {
      LatestEndIsReached(spans[..|spans| - 1], from);
      assert SpanEnd(spans[|spans| - 1]) == LatestEnd(spans, from) ==> spans[|spans| - 1] in spans;
    }
  }

  lemma FinishTurnEnds(turn: Turn)
    requires turn.spans != []
    ensures var end := FinishTurn(turn).turn.endedAt;
            end == turn.endedAt || exists sp :: sp in turn.spans && SpanEnd(sp) == end
  {
    hide Ordered, LatestEnd;
    var spans := Ordered(turn.spans);
    LatestEndIsReached(spans, turn.endedAt);
    if sp :| sp in spans && SpanEnd(sp) == LatestEnd(spans, turn.endedAt) { OrderedMembers(turn.spans, sp); }
  }

  lemma OrderedMembers(spans: seq<Span>, sp: Span)
    requires spans != [] && sp in Ordered(spans)
    ensures sp in spans
  {
    SortIsStable(spans[1..], 0);
    if sp != spans[0] {
      assert sp in StableSort(spans[1..]);
      assert sp in multiset(StableSort(spans[1..]));
      assert sp in multiset(spans[1..]);
    }
  }

  /** The finished trace: same spans, root first, rest in stable time order, the trace's
      window covering every span and no more, rollups that add up over the spans as walked,
      and nothing else changed. */
  lemma FinishTurnMeans(turn: Turn, m: Measure)
    requires turn.spans != [] && turn.spans[0].fixed.kind == AgentSpan
    ensures var f := FinishTurn(turn);
            && |f.turn.spans| == |turn.spans| && f.turn.spans[0].fixed == turn.spans[0].fixed
            && multiset(f.turn.spans[1..]) == multiset(turn.spans[1..])
            && Sorted(f.turn.spans[1..])
            && (forall i | 0 < i < |f.turn.spans| :: SpanEnd(f.turn.spans[i]) <= f.turn.endedAt)
            && f.turn.spans[0].duration == f.turn.endedAt - turn.startedAt
            && f.rollup == RollupOf(turn.spans)
            && turn.endedAt <= f.turn.endedAt
            && (f.turn.endedAt == turn.endedAt || exists sp :: sp in turn.spans && SpanEnd(sp) == f.turn.endedAt)
            && f.turn.spans[0] == turn.spans[0].(duration := f.turn.spans[0].duration)
            && f.turn == turn.(spans := f.turn.spans, endedAt := f.turn.endedAt)
  {
    hide SumSpans, SpanWeight, LatestEnd, StableSort, SpanEnd, Insert, Sorted;
    FinishTurnEnds(turn);
    var spans := Ordered(turn.spans);
    SortIsStable(turn.spans[1..], 0);
    LatestEndCovers(spans, turn.endedAt);
    OrderedSum(turn.spans, Prompt);
    OrderedSum(turn.spans, Completion);
    OrderedSum(turn.spans, CacheRead);
    OrderedSum(turn.spans, CacheCreation);
    OrderedSum(turn.spans, MainPrompt);
    OrderedSum(turn.spans, MainCompletion);
    OrderedSum(turn.spans, ToolSpans);
    var f := FinishTurn(turn);
    assert f.turn.spans[1..] == spans[1..] == StableSort(turn.spans[1..]);
  }

  // ---------------------------------------------------------------- the model fold

  /** A session's spend on one model. */
  ghost function ModelUseOf(turns: seq<Turn>, s: Session, model: string): ModelUse {
    ModelUse(SessionTotal(turns, s, ModelCalls(model)), SessionTotal(turns, s, ModelPrompt(model)),
             SessionTotal(turns, s, ModelCompletion(model)))
  }

  /** Per-session, per-model spend as finish reports it, against the calls themselves. */
  lemma ModelSpendConserved(calls: seq<Call>, s: Session, model: string)
    requires WellFormed(calls)
    ensures ModelUseOf(Walk(calls).turns, s, model)
         == ModelUse(SumCalls(calls, s, ModelCalls(model)), SumCalls(calls, s, ModelPrompt(model)),
                     SumCalls(calls, s, ModelCompletion(model)))
  {
    hide Walk, SessionTotal, SumCalls;
    SpendConserved(calls, s, ModelCalls(model));
    SpendConserved(calls, s, ModelPrompt(model));
    SpendConserved(calls, s, ModelCompletion(model));
  }

  /** One reported total summed over a session's finished traces. */
  ghost function Reported(done: seq<Finished>, s: Session): Rollup {
    if done == [] then Rollup(0, 0, 0, 0, 0, 0, 0)
    else
      var rest, f := Reported(done[..|done| - 1], s), done[|done| - 1];
      if f.turn.session != s then rest
      else Rollup(rest.prompt + f.rollup.prompt, rest.completion + f.rollup.completion,
                  rest.cacheRead + f.rollup.cacheRead, rest.cacheCreation + f.rollup.cacheCreation,
                  rest.mainPrompt + f.rollup.mainPrompt, rest.mainCompletion + f.rollup.mainCompletion,
                  rest.toolCalls + f.rollup.toolCalls)
  }

  ghost function FinishAll(turns: seq<Turn>): seq<Finished>
    requires NoEmptyTurn(turns)
  {
    if turns == [] then [] else FinishAll(turns[..|turns| - 1]) + [FinishTurn(turns[|turns| - 1])]
  }

  ghost predicate AgentRoots(turns: seq<Turn>) {
    forall t | 0 <= t < |turns| :: turns[t].spans != [] && turns[t].spans[0].fixed.kind == AgentSpan
  }

  lemma {:induction false} ReportedIsTotal(turns: seq<Turn>, s: Session)
    requires NoEmptyTurn(turns) && AgentRoots(turns)
    ensures Reported(FinishAll(turns), s)
         == Rollup(SessionTotal(turns, s, Prompt), SessionTotal(turns, s, Completion),
                   SessionTotal(turns, s, CacheRead), SessionTotal(turns, s, CacheCreation),
                   SessionTotal(turns, s, MainPrompt), SessionTotal(turns, s, MainCompletion),
                   SessionTotal(turns, s, ToolSpans))
  {
    if turns != [] {
      var rest := turns[..|turns| - 1];
      ReportedIsTotal(rest, s);
      FinishTurnMeans(turns[|turns| - 1], Prompt);
      assert FinishAll(turns)[..|rest|] == FinishAll(rest) by { FinishAllLength(rest); }
    }
  }

  lemma {:induction false} FinishAllLength(turns: seq<Turn>)
    requires NoEmptyTurn(turns)
    ensures |FinishAll(turns)| == |turns|
  {
    if turns != [] { FinishAllLength(turns[..|turns| - 1]); }
  }
}
