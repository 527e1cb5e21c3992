/** The thread phase runs to a fixed point: the calls it places before the degrade pass are
    the least set closed under "my thread has its agent span, or my anchor tool exists". */
module ThreadFixpoint {
  import opened Llm
  import opened DeriveModel
  import opened SpanModel

  /** The reference definition of readiness, relative to the calls already placed: no
      emitter state beyond what the spine left behind. */
  ghost predicate Supported(spine: Em, placed: set<Call>, c: Call) {
    || ThreadKey(c) in spine.agents
    || (exists d | d in placed :: ThreadKey(d) == ThreadKey(c))
    || (Anchor(c) != "" && AnchorEmitted(spine, placed, Key(c.session, Anchor(c))))
  }

  ghost predicate AnchorEmitted(spine: Em, placed: set<Call>, k: Key) {
    k in spine.tools || exists d | d in placed :: d.chain != [] && k in Emitted(d)
  }

  /** No call of the pending list outside s is supported by s. */
  ghost predicate Closed(spine: Em, pending: seq<Call>, s: set<Call>) {
    forall c | c in pending && Supported(spine, s, c) :: c in s
  }

  /** em is the spine's state after exactly the calls in placed were emitted, as far as
      readiness can tell. */
  ghost predicate Reached(spine: Em, placed: set<Call>, em: Em) {
    && (forall k :: k in em.agents <==> k in spine.agents || exists d | d in placed :: ThreadKey(d) == k)
    && (forall k :: k in em.tools <==> AnchorEmitted(spine, placed, k))
  }

  lemma ReadyIsSupported(spine: Em, placed: set<Call>, em: Em, c: Call)
    requires Reached(spine, placed, em)
    ensures Ready(em, c) <==> Supported(spine, placed, c)
  {
  }

  lemma SupportMonotone(spine: Em, a: set<Call>, b: set<Call>, c: Call)
    requires a <= b && Supported(spine, a, c)
    ensures Supported(spine, b, c)
  {
  }

  lemma PlaceOne(spine: Em, placed: set<Call>, em: Em, c: Call)
    requires Reached(spine, placed, em) && Valid(em) && c.Valid() && c.chain != []
    ensures Reached(spine, placed + {c}, ThreadCall(em, c))
  {
    hide Valid, Grows, ThreadCall;
    var next := ThreadCall(em, c);
    ThreadCallKeys(em, c);
    forall k ensures k in next.tools <==> AnchorEmitted(spine, placed + {c}, k) {
      assert k in next.tools <==> k in em.tools || k in Emitted(c);
      if AnchorEmitted(spine, placed + {c}, k) && k !in spine.tools {
        var d :| d in placed + {c} && d.chain != [] && k in Emitted(d);
        assert d == c || AnchorEmitted(spine, placed, k);
      }
      if k in Emitted(c) { assert c in placed + {c}; }
    }
    forall k ensures k in next.agents <==> k in spine.agents || exists d | d in placed + {c} :: ThreadKey(d) == k {
      assert k in next.agents <==> k in em.agents || k == ThreadKey(c);
      if k == ThreadKey(c) { assert c in placed + {c}; }
    }
  }

  /** The calls one pass emits, in order. */
  ghost function PassOrder(em: Em, pending: seq<Call>, i: nat): seq<Call>
    requires Valid(em) && i <= |pending| && Emittable(pending)
    decreases |pending| - i
  {
    if i == |pending| then []
    else if Ready(em, pending[i]) then [pending[i]] + PassOrder(ThreadCall(em, pending[i]), pending, i + 1)
    else PassOrder(em, pending, i + 1)
  }

  /** The calls all passes emit, in order. */
  ghost function Order(em: Em, pending: seq<Call>): seq<Call>
    requires Valid(em) && Emittable(pending)
    decreases |pending|
  {
    if pending == [] then []
    else
      var p := Pass(em, pending, 0, []);
      if |p.1| == |pending| then []
      else PassOrder(em, pending, 0) + Order(p.0, p.1)
  }

  lemma DegradeStep(em: Em, s: seq<Call>, i: nat)
    requires Valid(em) && Emittable(s) && i < |s|
    ensures Valid(ThreadCall(em, s[i]))
    ensures Degrade(em, s, i) == Degrade(ThreadCall(em, s[i]), s, i + 1)
  {
    hide Valid, Grows, ThreadCall;
  }

  lemma {:induction false} DegradeSplits(em: Em, a: seq<Call>, b: seq<Call>, i: nat)
    requires Valid(em) && Emittable(a) && Emittable(b) && Emittable(a + b) && i <= |a|
    ensures Degrade(em, a + b, i) == Degrade(Degrade(em, a, i), b, 0)
    decreases |a| - i
  {
    hide Valid, Grows, ThreadCall, Degrade;
    if i == |a| {
      DegradeShifts(em, a, b, 0);
      DegradeEnds(em, a);
    } else {
      assert (a + b)[i] == a[i];
      DegradeStep(em, a, i);
      DegradeStep(em, a + b, i);
      DegradeSplits(ThreadCall(em, a[i]), a, b, i + 1);
    }
  }

  lemma {:induction false} DegradeShifts(em: Em, a: seq<Call>, b: seq<Call>, j: nat)
    requires Valid(em) && Emittable(b) && Emittable(a + b) && j <= |b|
    ensures Degrade(em, a + b, |a| + j) == Degrade(em, b, j)
    decreases |b| - j
  {
    hide Valid, Grows, ThreadCall, Degrade;
    if j == |b| {
      DegradeEnds(em, b);
      DegradeEnds(em, a + b);
    } else {
      assert (a + b)[|a| + j] == b[j];
      DegradeStep(em, b, j);
      DegradeStep(em, a + b, |a| + j);
      DegradeShifts(ThreadCall(em, b[j]), a, b, j + 1);
    }
  }

  lemma DegradeEnds(em: Em, s: seq<Call>)
    requires Valid(em) && Emittable(s)
    ensures Degrade(em, s, |s|) == em
  {
  }

  lemma DegradePrefixed(em: Em, c: Call, rest: seq<Call>)
    requires Valid(em) && Emittable(rest) && c.Valid() && c.chain != []
    ensures Emittable([c] + rest) && Valid(ThreadCall(em, c))
    ensures Degrade(em, [c] + rest, 0) == Degrade(ThreadCall(em, c), rest, 0)
  {
    hide Valid, Grows, ThreadCall, Degrade;
    DegradeStep(em, [c] + rest, 0);
    DegradeShifts(ThreadCall(em, c), [c], rest, 0);
  }

  lemma {:induction false} PassRuns(em: Em, pending: seq<Call>, i: nat, blocked: seq<Call>)
    requires Valid(em) && i <= |pending| && Emittable(pending) && Emittable(blocked)
    ensures var o := PassOrder(em, pending, i);
            Emittable(o) && Pass(em, pending, i, blocked).0 == Degrade(em, o, 0)
    decreases |pending| - i
  {
    hide Valid, Grows, ThreadCall, Ready, Degrade;
    if i == |pending| {
      DegradeEmpty(em);
    } else if Ready(em, pending[i]) {
      var e := ThreadCall(em, pending[i]);
      PassRuns(e, pending, i + 1, blocked);
      DegradePrefixed(em, pending[i], PassOrder(e, pending, i + 1));
    } else {
      PassRuns(em, pending, i + 1, blocked + [pending[i]]);
    }
  }

  lemma {:induction false} PassPartitions(em: Em, pending: seq<Call>, i: nat, blocked: seq<Call>)
    requires Valid(em) && i <= |pending| && Emittable(pending) && Emittable(blocked)
    ensures multiset(PassOrder(em, pending, i)) + multiset(Pass(em, pending, i, blocked).1)
         == multiset(blocked) + multiset(pending[i..])
    decreases |pending| - i
  {
    hide Valid, Grows, ThreadCall, Ready, Emittable;
    if i < |pending| {
      var c := pending[i];
      EmittableSnoc(blocked, pending, i);
      assert pending[i..] == [c] + pending[i + 1..];
      if Ready(em, c) {
        PassPartitions(ThreadCall(em, c), pending, i + 1, blocked);
        ConsBoth(c, PassOrder(ThreadCall(em, c), pending, i + 1), Pass(em, pending, i, blocked).1, blocked, pending[i + 1..]);
      } else {
        PassPartitions(em, pending, i + 1, blocked + [c]);
        MoveOver(c, blocked, pending[i + 1..]);
      }
    }
  }

  lemma ConsBoth<T>(x: T, a: seq<T>, b: seq<T>, c: seq<T>, d: seq<T>)
    requires multiset(a) + multiset(b) == multiset(c) + multiset(d)
    ensures multiset([x] + a) + multiset(b) == multiset(c) + multiset([x] + d)
  {
    assert multiset([x] + a) == multiset{x} + multiset(a);
    assert multiset([x] + d) == multiset{x} + multiset(d);
    calc {
      multiset([x] + a) + multiset(b);
      multiset{x} + (multiset(a) + multiset(b));
      multiset{x} + (multiset(c) + multiset(d));
      multiset(c) + multiset([x] + d);
    }
  }

  lemma MoveOver<T>(x: T, a: seq<T>, b: seq<T>)
    ensures multiset(a + [x]) + multiset(b) == multiset(a) + multiset([x] + b)
  {
  }

  lemma EmittableSnoc(a: seq<Call>, b: seq<Call>, i: nat)
    requires Emittable(a) && Emittable(b) && i < |b|
    ensures Emittable(a + [b[i]]) && b[i].Valid() && b[i].chain != []
  {
  }

  /** Every pending call is emitted exactly once, the fixed-point part first: the phase is
      one walk over a reordering of the pending list. */
  lemma {:induction false} FixpointRuns(em: Em, pending: seq<Call>)
    requires Valid(em) && Emittable(pending)
    ensures var o, f := Order(em, pending), Fixpoint(em, pending);
            && Emittable(o) && f.0 == Degrade(em, o, 0)
            && multiset(o) + multiset(f.1) == multiset(pending)
    decreases |pending|
  {
    hide Valid, Grows, ThreadCall, PassOrder, Pass, Degrade;
    if pending == [] {
      DegradeEmpty(em);
    } else {
      var p := Pass(em, pending, 0, []);
      if |p.1| == |pending| {
        DegradeEmpty(em);
      } else {
        PassRuns(em, pending, 0, []);
        PassPartitions(em, pending, 0, []);
        assert pending[0..] == pending;
        FixpointRuns(p.0, p.1);
        var a, b := PassOrder(em, pending, 0), Order(p.0, p.1);
        assert Emittable(a + b);
        DegradeSplits(em, a, b, 0);
        assert Order(em, pending) == a + b;
        assert multiset(a + b) == multiset(a) + multiset(b);
        assert multiset(a) + multiset(p.1) == multiset(pending);
      }
    }
  }

  lemma DegradeEmpty(em: Em)
    requires Valid(em)
    ensures Degrade(em, [], 0) == em
  {
  }

  lemma EveryThreadCallOnce(em: Em, pending: seq<Call>)
    requires Valid(em) && Emittable(pending)
    ensures var o := Order(em, pending) + Fixpoint(em, pending).1;
            && multiset(o) == multiset(pending)
            && Emittable(o) && ThreadPhase(em, pending) == Degrade(em, o, 0)
  {
    hide Valid, Grows, ThreadCall, Order, Degrade;
    FixpointRuns(em, pending);
    var f := Fixpoint(em, pending);
    assert Emittable(Order(em, pending) + f.1);
    DegradeSplits(em, Order(em, pending), f.1, 0);
    assert multiset(Order(em, pending) + f.1) == multiset(Order(em, pending)) + multiset(f.1);
  }

  ghost function Members(calls: seq<Call>): set<Call> {
    set c | c in calls
  }

  /** One pass from a reached state: it stays reached, everything it places is supported by
      what any closed superset already holds, and what it leaves behind is pending. */
  lemma {:induction false} PassKeeps(spine: Em, all: seq<Call>, c0: set<Call>, placed: set<Call>, em: Em,
                                     pending: seq<Call>, i: nat)
    requires Valid(em) && i <= |pending| && Emittable(pending)
    requires Reached(spine, placed, em) && placed <= c0 && Closed(spine, all, c0)
    requires Members(pending) <= Members(all)
    ensures var o := PassOrder(em, pending, i);
            && Emittable(o) && Reached(spine, placed + Members(o), Degrade(em, o, 0))
            && Members(o) <= c0
    decreases |pending| - i
  {
    hide Valid, Grows, ThreadCall, Reached, Ready, Supported, Degrade;
    if i == |pending| {
      assert placed + Members([]) == placed;
      DegradeEmpty(em);
    } else if Ready(em, pending[i]) {
      var c := pending[i];
      ReadyIsSupported(spine, placed, em, c);
      SupportMonotone(spine, placed, c0, c);
      assert c in Members(pending) && c in all && c in c0;
      PlaceOne(spine, placed, em, c);
      var e := ThreadCall(em, c);
      PassKeeps(spine, all, c0, placed + {c}, e, pending, i + 1);
      var rest := PassOrder(e, pending, i + 1);
      DegradePrefixed(em, c, rest);
      assert placed + {c} + Members(rest) == placed + Members([c] + rest);
    } else {
      PassKeeps(spine, all, c0, placed, em, pending, i + 1);
    }
  }

  lemma {:induction false} StuckPass(em: Em, pending: seq<Call>, i: nat, blocked: seq<Call>)
    requires Valid(em) && i <= |pending| && Emittable(pending) && Emittable(blocked)
    requires |Pass(em, pending, i, blocked).1| == |blocked| + |pending| - i
    ensures forall j | i <= j < |pending| :: !Ready(em, pending[j])
    decreases |pending| - i
  {
    if i < |pending| && !Ready(em, pending[i]) {
      StuckPass(em, pending, i + 1, blocked + [pending[i]]);
    }
  }

  lemma {:induction false} FixpointKeeps(spine: Em, all: seq<Call>, c0: set<Call>, placed: set<Call>, em: Em,
                                         pending: seq<Call>)
    requires Valid(em) && Emittable(pending)
    requires Reached(spine, placed, em) && placed <= c0 && Closed(spine, all, c0)
    requires Members(pending) <= Members(all)
    ensures var o, f := Order(em, pending), Fixpoint(em, pending);
            && Reached(spine, placed + Members(o), f.0)
            && Members(o) <= c0
            && forall c | c in f.1 :: !Ready(f.0, c)
    decreases |pending|
  {
    hide Valid, Grows, ThreadCall, Reached, Ready, Supported, Pass, PassOrder, Degrade;
    if pending == [] {
      assert placed + Members([]) == placed;
    } else {
      var p := Pass(em, pending, 0, []);
      if |p.1| == |pending| {
        StuckPass(em, pending, 0, []);
        assert placed + Members([]) == placed;
      } else {
        PassKeeps(spine, all, c0, placed, em, pending, 0);
        PassRuns(em, pending, 0, []);
        PassPartitions(em, pending, 0, []);
        assert pending[0..] == pending;
        var a, b := PassOrder(em, pending, 0), Order(p.0, p.1);
        forall c | c in p.1 ensures c in pending {
          assert c in multiset(a) + multiset(p.1);
        }
        FixpointKeeps(spine, all, c0, placed + Members(a), p.0, p.1);
        assert placed + Members(a) + Members(b) == placed + Members(a + b);
      }
    }
  }

  /** The least fixed point: what the phase places before degrading is closed, and lies in
      every closed set. */
  lemma PlacedIsLeastFixpoint(spine: Em, pending: seq<Call>)
    requires Valid(spine) && Emittable(pending)
    ensures Closed(spine, pending, Members(Order(spine, pending)))
    ensures forall s | Closed(spine, pending, s) :: Members(Order(spine, pending)) <= s
    ensures Members(Order(spine, pending)) <= Members(pending)
  {
    hide Valid, Grows, ThreadCall, Ready, Supported, Pass, Order, Fixpoint, Degrade, AnchorEmitted;
    var f := Fixpoint(spine, pending);
    var placed := Members(Order(spine, pending));
    ReachedAtStart(spine);
    FixpointRuns(spine, pending);
    forall s | Closed(spine, pending, s) ensures placed <= s {
      FixpointKeeps(spine, pending, s, {}, spine, pending);
    }
    FixpointKeeps(spine, pending, Members(pending), {}, spine, pending);
    assert {} + placed == placed;
    forall c | c in pending && Supported(spine, placed, c) ensures c in placed {
      ReadyIsSupported(spine, placed, f.0, c);
      assert c in multiset(pending);
      assert c in multiset(Order(spine, pending)) + multiset(f.1);
    }
  }

  lemma ReachedAtStart(spine: Em)
    ensures Reached(spine, {}, spine)
  {
  }

  /** Which calls are placed does not depend on the order of the pending list. */
  lemma PlacedIgnoresOrder(spine: Em, p: seq<Call>, q: seq<Call>)
    requires Valid(spine) && Emittable(p) && Emittable(q)
    requires forall c :: c in p <==> c in q
    ensures Members(Order(spine, p)) == Members(Order(spine, q))
  {
    hide Valid, Supported, Order;
    PlacedIsLeastFixpoint(spine, p);
    PlacedIsLeastFixpoint(spine, q);
    assert Closed(spine, p, Members(Order(spine, q)));
    assert Closed(spine, q, Members(Order(spine, p)));
  }
}
