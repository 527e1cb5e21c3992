/** What the span emitter may rely on: the calls a derive pass hands over are separate. */
module DerivedCalls {
  import opened Llm
  import opened DeriveModel
  import opened Chain
  import opened DeriverModel
  import opened Dedup
  import SpanModel
  import SpanWalk

  ghost function Calls(d: Derived): seq<Call>
    requires Consistent(d)
  {
    assert forall k | 0 <= k < |d.sources| :: Resolved(d, d.sources[k]) by {
      forall k | 0 <= k < |d.sources| ensures Resolved(d, d.sources[k]) {
        assert d.sources[k] in d.sources;
      }
    }
    CallsOf(d, |d.sources|)
  }

  lemma CallAt(d: Derived, k: nat)
    requires Consistent(d) && k < |d.sources|
    ensures |Calls(d)| == |d.sources| && Resolved(d, d.sources[k]) && Calls(d)[k] == CallOf(d, d.sources[k])
    ensures var c := Calls(d)[k];
            c.Valid() && c.chain != [] && |c.chain| == |d.sources[k].chain| && c.isNew == d.sources[k].isNew
  {
    assert d.sources[k] in d.sources;
  }

  lemma HashAt(d: Derived, k: nat, i: nat)
    requires Consistent(d) && k < |d.sources| && i < |d.sources[k].chain|
    ensures |Calls(d)| == |d.sources| && |Calls(d)[k].chain| == |d.sources[k].chain|
    ensures Calls(d)[k].chain[i].hash == d.sources[k].chain[i]
    ensures d.sources[k].chain[i] in d.byHash && Calls(d)[k].chain[i] == d.byHash[d.sources[k].chain[i]].node
  {
    CallAt(d, k);
  }

  /** A position marked new, read on the calls: no other position of any call is new for
      the same hash. */
  lemma NewHashesAreApart(d: Derived, k: nat, i: nat, l: nat, j: nat)
    requires Consistent(d) && |Calls(d)| == |d.sources| && k < |d.sources| && l < |d.sources|
    requires i < |Calls(d)[k].chain| && j < |Calls(d)[l].chain| && Calls(d)[k].Valid() && Calls(d)[l].Valid()
    requires Calls(d)[k].isNew[i] && Calls(d)[l].isNew[j] && Calls(d)[k].chain[i].hash == Calls(d)[l].chain[j].hash
    ensures k == l && i == j
  {
    hide Calls, AllResolved, Introduced;
    CallAt(d, k);
    CallAt(d, l);
    HashAt(d, k, i);
    HashAt(d, l, j);
    var h := d.sources[k].chain[i];
    assert NewAt(d.sources[k], i, h) && NewAt(d.sources[l], j, h);
  }

  /** Calls are one to the walk exactly when they share their request id, or have none and
      share their raw row and response. */
  lemma SameIdentity(a: Call, b: Call)
    requires a.chain != [] && b.chain != []
    ensures SpanModel.Identity(a) == SpanModel.Identity(b)
       <==> a.requestId == b.requestId && (a.requestId != "" || (a.rawTurn == b.rawTurn && a.Response().hash == b.Response().hash))
  {
  }

  ghost predicate DistinctIdentities(d: Derived)
    requires Consistent(d)
  {
    forall k, l | 0 <= k < l < |d.sources| ::
      Calls(d)[k].chain != [] && Calls(d)[l].chain != []
      && SpanModel.Identity(Calls(d)[k]) != SpanModel.Identity(Calls(d)[l])
  }

  /** Distinct raw rows whose non-empty request ids differ have distinct identities. */
  lemma IdentitiesDistinct(d: Derived)
    requires Consistent(d)
    requires forall k, l | 0 <= k < l < |d.sources| ::
               d.sources[k].rawTurn != d.sources[l].rawTurn
               && (d.sources[k].requestId == "" || d.sources[k].requestId != d.sources[l].requestId)
    ensures |Calls(d)| == |d.sources| && DistinctIdentities(d)
  {
    hide Consistent, Calls;
    if d.sources != [] { CallAt(d, 0); }
    assert |Calls(d)| == |d.sources| by { CountCalls(d); }
    forall k, l | 0 <= k < l < |d.sources|
      ensures Calls(d)[k].chain != [] && Calls(d)[l].chain != []
              && SpanModel.Identity(Calls(d)[k]) != SpanModel.Identity(Calls(d)[l])
    {
      CallAt(d, k);
      CallAt(d, l);
      SameIdentity(Calls(d)[k], Calls(d)[l]);
    }
  }

  lemma CountCalls(d: Derived)
    requires Consistent(d)
    ensures |Calls(d)| == |d.sources|
  {
  }

  /** The derive pass supplies exactly what the emitter's soundness needs. */
  lemma DerivedCallsAreSeparate(d: Derived)
    requires Consistent(d) && |Calls(d)| == |d.sources| && DistinctIdentities(d)
    ensures SpanWalk.Separate(Calls(d))
  {
    hide Consistent, Calls;
    var calls := Calls(d);
    forall c | c in calls ensures c.Valid() && SpanWalk.FreshFrom(c, 0, {}) {
      var k :| 0 <= k < |calls| && calls[k] == c;
      CallAt(d, k);
      forall j, i | 0 <= i < j < |c.chain| - 1 && c.isNew[j] && c.isNew[i] ensures c.chain[i].hash != c.chain[j].hash {
        if c.chain[i].hash == c.chain[j].hash { NewHashesAreApart(d, k, i, k, j); }
      }
    }
    forall k, l | 0 <= k < l < |calls| ensures SpanWalk.Apart(calls[k], calls[l]) {
      CallAt(d, k);
      CallAt(d, l);
      var a, b := SpanWalk.NewFrom(calls[k], 0), SpanWalk.NewFrom(calls[l], 0);
      if h :| h in a && h in b {
        var i :| 0 <= i < |calls[k].chain| - 1 && calls[k].isNew[i] && calls[k].chain[i].hash == h;
        var j :| 0 <= j < |calls[l].chain| - 1 && calls[l].isNew[j] && calls[l].chain[j].hash == h;
        NewHashesAreApart(d, k, i, l, j);
      }
      assert DistinctIdentities(d);
    }
  }
}
