/** No tool_use is consumed twice, every call is claimed at most once, and the groups keep
    actions together and threads apart. */
module AttachClaims {
  import opened Llm
  import opened DeriveModel
  import opened DeriverModel
  import opened AttachModel

  // ---------------------------------------------------------------- one attachment

  /** e is d with the calls in ks anchored to id: nothing else about a call changes, and
      nodes change in their stamps only. */
  ghost predicate OnlyAnchors(d: Derived, e: Derived) {
    && e.nodes == d.nodes && |e.tools| == |d.tools| && |e.sources| == |d.sources| && e.byHash.Keys == d.byHash.Keys
    && (forall k | 0 <= k < |d.sources| :: e.sources[k] == d.sources[k].(anchor := e.sources[k].anchor))
    && (forall t | 0 <= t < |d.tools| :: e.tools[t] == d.tools[t].(consumed := e.tools[t].consumed))
    && (forall h | h in d.byHash :: e.byHash[h] == d.byHash[h].(node := d.byHash[h].node.(forkStamp := e.byHash[h].node.forkStamp)))
  }

  lemma OnlyAnchorsTransitive(a: Derived, b: Derived, c: Derived)
    requires OnlyAnchors(a, b) && OnlyAnchors(b, c)
    ensures OnlyAnchors(a, c)
  {
  }

  lemma {:induction false} StampOwnOnly(byHash: map<Hash, Kept>, s: Source, id: string, n: nat)
    requires n <= |s.chain|
    ensures var m := StampOwn(byHash, s, id, n);
            && m.Keys == byHash.Keys
            && forall h | h in byHash :: m[h] == byHash[h].(node := byHash[h].node.(forkStamp := m[h].node.forkStamp))
  {
    if n > 0 { StampOwnOnly(byHash, s, id, n - 1); }
  }

  lemma {:induction false} AnchorCallsMean(d: Derived, calls: seq<nat>, id: string)
    ensures var e := AnchorCalls(d, calls, id);
            && OnlyAnchors(d, e) && e.tools == d.tools
            && forall k | 0 <= k < |d.sources| :: e.sources[k].anchor == if k in calls then id else d.sources[k].anchor
  {
    if calls != [] {
      var rest, k := calls[..|calls| - 1], calls[|calls| - 1];
      AnchorCallsMean(d, rest, id);
      var before := AnchorCalls(d, rest, id);
      assert calls == rest + [k];
      if k < |before.sources| {
        hide StampOwn;
        StampOwnOnly(before.byHash, before.sources[k], id, |before.sources[k].chain|);
        OnlyAnchorsTransitive(d, before, AnchorCall(before, k, id));
      }
    }
  }

  lemma AttachMeans(d: Derived, c: Claim)
    requires c.tool < |d.tools|
    ensures var e := Attach(d, c);
            && OnlyAnchors(d, e)
            && (forall t | 0 <= t < |d.tools| :: e.tools[t].consumed <==> d.tools[t].consumed || t == c.tool)
            && (forall k | 0 <= k < |d.sources| ::
                  e.sources[k].anchor == if k in c.calls then d.tools[c.tool].id else d.sources[k].anchor)
  {
    var consumed := Consume(d, c.tool);
    AnchorCallsMean(consumed, c.calls, d.tools[c.tool].id);
    OnlyAnchorsTransitive(d, consumed, Attach(d, c));
  }

  // ---------------------------------------------------------------- what a list of claims says

  ghost predicate ToolClaimed(claims: seq<Claim>, t: int) {
    exists i :: 0 <= i < |claims| && claims[i].tool == t
  }

  ghost predicate CallClaimed(claims: seq<Claim>, k: nat) {
    exists i :: 0 <= i < |claims| && k in claims[i].calls
  }

  ghost predicate ToolsOnce(claims: seq<Claim>) {
    forall i, j | 0 <= i < j < |claims| :: claims[i].tool != claims[j].tool
  }

  ghost predicate CallsOnce(claims: seq<Claim>) {
    forall i, j, k | 0 <= i < j < |claims| :: !(k in claims[i].calls && k in claims[j].calls)
  }

  /** e is d after exactly these claims: each consumed a free tool, once, and anchored its
      calls to that tool; every other tool and every other call is as it was. */
  ghost predicate Settled(d: Derived, e: Derived, claims: seq<Claim>) {
    && OnlyAnchors(d, e) && ToolsOnce(claims) && CallsOnce(claims)
    && (forall i | 0 <= i < |claims| :: claims[i].tool < |d.tools| && !d.tools[claims[i].tool].consumed)
    && (forall t | 0 <= t < |d.tools| :: e.tools[t].consumed <==> d.tools[t].consumed || ToolClaimed(claims, t))
    && (forall i, k | 0 <= i < |claims| && 0 <= k < |d.sources| && k in claims[i].calls ::
          e.sources[k].anchor == d.tools[claims[i].tool].id)
    && (forall k | 0 <= k < |d.sources| && !CallClaimed(claims, k) :: e.sources[k].anchor == d.sources[k].anchor)
  }

  lemma SettledNothing(d: Derived)
    ensures Settled(d, d, [])
  {
  }

  /** One more claim, on a tool still free and calls not yet claimed. */
  lemma SettledOneMore(d: Derived, e: Derived, claims: seq<Claim>, c: Claim)
    requires Settled(d, e, claims) && c.tool < |e.tools| && !e.tools[c.tool].consumed
    requires forall k | k in c.calls :: !CallClaimed(claims, k)
    ensures Settled(d, Attach(e, c), claims + [c])
  {
    hide Attach;
    var f, all := Attach(e, c), claims + [c];
    AttachMeans(e, c);
    OnlyAnchorsTransitive(d, e, f);
    forall t | 0 <= t < |d.tools| ensures ToolClaimed(all, t) <==> ToolClaimed(claims, t) || t == c.tool {
      if ToolClaimed(claims, t) {
        var i :| 0 <= i < |claims| && claims[i].tool == t;
        assert all[i].tool == t;
      }
      if t == c.tool { assert all[|claims|].tool == t; }
    }
    forall k: nat ensures CallClaimed(all, k) <==> CallClaimed(claims, k) || k in c.calls {
      if CallClaimed(claims, k) {
        var i :| 0 <= i < |claims| && k in claims[i].calls;
        assert k in all[i].calls;
      }
      if k in c.calls { assert k in all[|claims|].calls; }
    }
    assert ToolsOnce(all) by {
      forall i | 0 <= i < |claims| ensures claims[i].tool != c.tool {
        assert ToolClaimed(claims, claims[i].tool);
      }
    }
    assert CallsOnce(all);
  }

  // ---------------------------------------------------------------- the groups

  /** A permission check of either stage whose judged action is known. */
  ghost predicate Checks(s: Source)
    ensures Checks(s) <==> IsCheck(s)
  {
    s.action != "" && s.kind.Shadow? && s.kind.name in {"offshoot:permission-check:stage1", "offshoot:permission-check:stage2"}
  }

  ghost predicate GroupOk(sources: seq<Source>, g: Group, n: nat)
    requires n <= |sources|
  {
    && g.calls != []
    && (forall k | k in g.calls :: k < n && Checks(sources[k]) && sources[k].action == g.action
                                   && (sources[k].thread == "" || sources[k].thread == g.thread))
    && (g.thread != "" ==> exists k :: k in g.calls && k < n && sources[k].thread == g.thread)
  }

  ghost predicate GroupsOk(sources: seq<Source>, order: seq<Group>, n: nat)
    requires n <= |sources|
  {
    && (forall i | 0 <= i < |order| :: GroupOk(sources, order[i], n))
    && (forall i, j, k | 0 <= i < j < |order| :: !(k in order[i].calls && k in order[j].calls))
    && (forall k | 0 <= k < n && Checks(sources[k]) :: Grouped(order, k))
  }

  ghost predicate Grouped(order: seq<Group>, k: nat) {
    exists i :: 0 <= i < |order| && k in order[i].calls
  }

  lemma GroupLater(sources: seq<Source>, g: Group, n: nat)
    requires n < |sources| && GroupOk(sources, g, n)
    ensures GroupOk(sources, g, n + 1)
  {
  }

  lemma GroupJoined(sources: seq<Source>, g: Group, n: nat)
    requires n < |sources| && GroupOk(sources, g, n) && IsCheck(sources[n]) && Joins(g, sources[n])
    ensures GroupOk(sources, Group(g.action, if g.thread == "" then sources[n].thread else g.thread, g.calls + [n]), n + 1)
  {
    var s := sources[n];
    var r := Group(g.action, if g.thread == "" then s.thread else g.thread, g.calls + [n]);
    if g.thread != "" {
      var k :| k in g.calls && k < n && sources[k].thread == g.thread;
      assert k in r.calls;
    } else {
      assert n in r.calls;
    }
  }

  lemma CheckGrouped(sources: seq<Source>, order: seq<Group>, n: nat)
    requires n < |sources| && GroupsOk(sources, order, n) && IsCheck(sources[n])
    ensures GroupsOk(sources, AddCheck(order, sources[n], n), n + 1)
  {
    hide GroupOk, IsCheck, Checks, Joins;
    var s, r := sources[n], AddCheck(order, sources[n], n);
    var at := FindGroup(order, s, 0);
    forall i | 0 <= i < |r| ensures GroupOk(sources, r[i], n + 1) {
      if i < |order| { GroupLater(sources, order[i], n); }
      if at.Some? && i == at.value { GroupJoined(sources, order[i], n); }
      if at.None? && i == |order| { FirstInGroup(sources, n); }
    }
    forall i | 0 <= i < |order| ensures n !in order[i].calls { MembersBelow(sources, order[i], n); }
    forall k | 0 <= k <= n && IsCheck(sources[k]) ensures Grouped(r, k) {
      if k < n {
        var i :| 0 <= i < |order| && k in order[i].calls;
        assert k in r[i].calls;
      } else {
        var i := if at.Some? then at.value else |order|;
        assert k in r[i].calls;
      }
    }
  }

  lemma FirstInGroup(sources: seq<Source>, n: nat)
    requires n < |sources| && IsCheck(sources[n])
    ensures GroupOk(sources, Group(sources[n].action, sources[n].thread, [n]), n + 1)
  {
    assert n in [n];
  }

  lemma MembersBelow(sources: seq<Source>, g: Group, n: nat)
    requires n <= |sources| && GroupOk(sources, g, n)
    ensures forall k | k in g.calls :: k < n
  {
  }

  /** Every check with a judged action is in exactly one group; a group has one action, and
      its members that name a thread all name the same one. */
  lemma {:induction false} GroupsPartitionChecks(sources: seq<Source>, n: nat)
    requires n <= |sources|
    ensures GroupsOk(sources, Groups(sources, n), n)
  {
    hide GroupOk, IsCheck, Checks, AddCheck;
    if n > 0 {
      GroupsPartitionChecks(sources, n - 1);
      var order := Groups(sources, n - 1);
      if IsCheck(sources[n - 1]) {
        CheckGrouped(sources, order, n - 1);
      } else {
        forall i | 0 <= i < |order| ensures GroupOk(sources, order[i], n) { GroupLater(sources, order[i], n - 1); }
      }
    }
  }

  // ---------------------------------------------------------------- the passes

  ghost predicate ClaimsCalls(claims: seq<Claim>, order: seq<Group>, n: nat)
    requires n <= |order|
  {
    forall i | 0 <= i < |claims| :: exists j :: 0 <= j < n && claims[i].calls == order[j].calls
  }

  lemma {:induction false} GroupsSettle(texts: Texts, d: Derived, order: seq<Group>, n: nat)
    requires n <= |order| && forall i, j, k | 0 <= i < j < |order| :: !(k in order[i].calls && k in order[j].calls)
    ensures var r := AttachGroups(texts, d, order, n); Settled(d, r.0, r.1) && ClaimsCalls(r.1, order, n)
  {
    hide Settled, MatchGroup, Attach;
    if n == 0 {
      SettledNothing(d);
    } else {
      GroupsSettle(texts, d, order, n - 1);
      var before, g := AttachGroups(texts, d, order, n - 1), order[n - 1];
      var at := MatchGroup(texts, before.0.tools, g);
      if at.Some? {
        forall k | k in g.calls ensures !CallClaimed(before.1, k) {
        }
        SettledOneMore(d, before.0, before.1, Claim(at.value, g.calls));
      }
    }
  }

  ghost predicate ClaimsKind(claims: seq<Claim>, sources: seq<Source>, kind: Kind, n: nat) {
    forall i | 0 <= i < |claims| :: KindClaim(claims[i], sources, kind, n)
  }

  ghost predicate KindClaim(c: Claim, sources: seq<Source>, kind: Kind, n: nat) {
    forall k | k in c.calls :: k < n && k < |sources| && sources[k].kind == kind
  }

  lemma ClaimsKindSnoc(claims: seq<Claim>, sources: seq<Source>, kind: Kind, n: nat, t: nat)
    requires 0 < n <= |sources| && ClaimsKind(claims, sources, kind, n - 1) && sources[n - 1].kind == kind
    ensures ClaimsKind(claims + [Claim(t, [n - 1])], sources, kind, n)
  {
    var all := claims + [Claim(t, [n - 1])];
    forall i | 0 <= i < |all| ensures KindClaim(all[i], sources, kind, n) {
      if i < |claims| { assert KindClaim(claims[i], sources, kind, n - 1); }
    }
  }

  lemma {:induction false} RecentSettles(d: Derived, kind: Kind, eligible: ToolRef -> bool, n: nat)
    requires n <= |d.sources|
    ensures var r := AttachRecent(d, kind, eligible, n);
            && Settled(d, r.0, r.1) && ClaimsKind(r.1, d.sources, kind, n)
            && forall i | 0 <= i < |r.1| :: |r.1[i].calls| == 1 && Recent(d, r.1[i], eligible)
  {
    hide Settled, Attach, Recent;
    if n == 0 {
      SettledNothing(d);
    } else {
      RecentSettles(d, kind, eligible, n - 1);
      var before := AttachRecent(d, kind, eligible, n - 1);
      SettledTools(d, before.0, before.1);
      if d.sources[n - 1].kind == kind {
        var at := Latest(before.0.tools, eligible, n - 1, |before.0.tools|);
        if at.Some? {
          assert forall k | k in [n - 1] :: !CallClaimed(before.1, k);
          SettledOneMore(d, before.0, before.1, Claim(at.value, [n - 1]));
          RecentHolds(d, before.0, eligible, n - 1, at.value);
          ClaimsKindSnoc(before.1, d.sources, kind, n, at.value);
        }
      }
    }
  }

  ghost predicate SameTools(d: Derived, e: Derived) {
    |e.tools| == |d.tools| && forall t | 0 <= t < |d.tools| :: e.tools[t] == d.tools[t].(consumed := e.tools[t].consumed)
  }

  /** A recency claim never reaches into the future. */
  ghost predicate Recent(d: Derived, c: Claim, eligible: ToolRef -> bool) {
    && |c.calls| == 1 && c.tool < |d.tools| && d.tools[c.tool].atTurn <= c.calls[0]
    && exists was: bool :: eligible(d.tools[c.tool].(consumed := was))
  }

  lemma SettledTools(d: Derived, e: Derived, claims: seq<Claim>)
    requires Settled(d, e, claims)
    ensures SameTools(d, e)
  {
  }

  lemma RecentHolds(d: Derived, e: Derived, eligible: ToolRef -> bool, at: nat, t: nat)
    requires SameTools(d, e) && t < |e.tools| && Open(e.tools[t], eligible, at)
    ensures Recent(d, Claim(t, [at]), eligible)
  {
    assert eligible(d.tools[t].(consumed := e.tools[t].consumed));
  }

  /** Claims of a later pass settle after those of an earlier one when no call is in both. */
  lemma SettledBoth(a: Derived, b: Derived, c: Derived, xs: seq<Claim>, ys: seq<Claim>)
    requires Settled(a, b, xs) && Settled(b, c, ys)
    requires forall i, j, k | 0 <= i < |xs| && 0 <= j < |ys| :: !(k in xs[i].calls && k in ys[j].calls)
    ensures Settled(a, c, xs + ys)
  {
    var all := xs + ys;
    OnlyAnchorsTransitive(a, b, c);
    BothClaim(xs, ys);
    assert ToolsOnce(all) by { BothToolsOnce(a, b, xs, ys); }
    forall i, k | 0 <= i < |all| && 0 <= k < |a.sources| && k in all[i].calls
      ensures c.sources[k].anchor == a.tools[all[i].tool].id
    {
      if i < |xs| {
        assert !CallClaimed(ys, k);
      } else {
        assert all[i] == ys[i - |xs|];
      }
    }
  }

  lemma BothClaim(xs: seq<Claim>, ys: seq<Claim>)
    ensures forall t: int :: ToolClaimed(xs + ys, t) <==> ToolClaimed(xs, t) || ToolClaimed(ys, t)
    ensures forall k: nat :: CallClaimed(xs + ys, k) <==> CallClaimed(xs, k) || CallClaimed(ys, k)
  {
    var all := xs + ys;
    forall t: int ensures ToolClaimed(all, t) <==> ToolClaimed(xs, t) || ToolClaimed(ys, t) {
      if ToolClaimed(xs, t) {
        var i :| 0 <= i < |xs| && xs[i].tool == t;
        assert all[i].tool == t;
      }
      if ToolClaimed(ys, t) {
        var i :| 0 <= i < |ys| && ys[i].tool == t;
        assert all[|xs| + i].tool == t;
      }
    }
    forall k: nat ensures CallClaimed(all, k) <==> CallClaimed(xs, k) || CallClaimed(ys, k) {
      if CallClaimed(xs, k) {
        var i :| 0 <= i < |xs| && k in xs[i].calls;
        assert k in all[i].calls;
      }
      if CallClaimed(ys, k) {
        var i :| 0 <= i < |ys| && k in ys[i].calls;
        assert k in all[|xs| + i].calls;
      }
    }
  }

  lemma BothToolsOnce(a: Derived, b: Derived, xs: seq<Claim>, ys: seq<Claim>)
    requires ToolsOnce(xs) && ToolsOnce(ys) && |a.tools| == |b.tools|
    requires forall i | 0 <= i < |xs| :: xs[i].tool < |a.tools|
    requires forall t | 0 <= t < |a.tools| :: b.tools[t].consumed <==> a.tools[t].consumed || ToolClaimed(xs, t)
    requires forall i | 0 <= i < |ys| :: ys[i].tool < |b.tools| && !b.tools[ys[i].tool].consumed
    ensures ToolsOnce(xs + ys)
  {
    forall i, j | 0 <= i < |xs| && 0 <= j < |ys| ensures xs[i].tool != ys[j].tool {
      assert ToolClaimed(xs, xs[i].tool);
    }
  }

  ghost predicate ChecksOnly(claims: seq<Claim>, sources: seq<Source>) {
    forall i | 0 <= i < |claims| :: CheckClaim(claims[i], sources)
  }

  ghost predicate CheckClaim(c: Claim, sources: seq<Source>) {
    forall k | k in c.calls :: k < |sources| && IsCheck(sources[k])
  }

  lemma VerdictsSettle(texts: Texts, d: Derived)
    ensures var r := AttachVerdicts(texts, d); Settled(d, r.0, r.1) && ChecksOnly(r.1, d.sources)
  {
    hide Settled, AttachGroups, Groups, IsCheck, Checks;
    var n := |d.sources|;
    var order := Groups(d.sources, n);
    GroupsPartitionChecks(d.sources, n);
    GroupsSettle(texts, d, order, |order|);
    var claims := AttachVerdicts(texts, d).1;
    forall i | 0 <= i < |claims| ensures CheckClaim(claims[i], d.sources) {
      var j :| 0 <= j < |order| && claims[i].calls == order[j].calls;
      assert GroupOk(d.sources, order[j], n);
    }
  }

  lemma SettledSources(d: Derived, e: Derived, claims: seq<Claim>)
    requires Settled(d, e, claims)
    ensures |e.sources| == |d.sources| && forall k | 0 <= k < |d.sources| :: e.sources[k].kind == d.sources[k].kind
  {
    forall k | 0 <= k < |d.sources| ensures e.sources[k].kind == d.sources[k].kind {
      assert e.sources[k] == d.sources[k].(anchor := e.sources[k].anchor);
    }
  }

  /** Across all three passes: no tool_use is consumed twice, no call is anchored twice, each
      claimed call is anchored to its claim's tool, and everything else is untouched. So the
      attached counters together count exactly the tools consumed. */
  lemma AttachSettles(texts: Texts, d: Derived)
    ensures var r := AttachAll(texts, d); Settled(d, r.0, r.1)
  {
    hide Settled, AttachVerdicts, AttachRecent, ClaimsKind, ChecksOnly;
    var v := AttachVerdicts(texts, d);
    VerdictsSettle(texts, d);
    SettledSources(d, v.0, v.1);
    var w := AttachRecent(v.0, WEB_SUMMARY, WebTools, |v.0.sources|);
    RecentSettles(v.0, WEB_SUMMARY, WebTools, |v.0.sources|);
    SettledSources(v.0, w.0, w.1);
    KindsApart(d, v.0, v.1, w.1);
    SettledBoth(d, v.0, w.0, v.1, w.1);
    var p := AttachRecent(w.0, PLAN_NAME_GEN, texts.isPlan, |w.0.sources|);
    RecentSettles(w.0, PLAN_NAME_GEN, texts.isPlan, |w.0.sources|);
    PlansApart(d, v.0, w.0, v.1, w.1, p.1);
    SettledBoth(d, w.0, p.0, v.1 + w.1, p.1);
  }

  lemma KindsApart(d: Derived, e: Derived, xs: seq<Claim>, ys: seq<Claim>)
    requires |e.sources| == |d.sources| && forall k | 0 <= k < |d.sources| :: e.sources[k].kind == d.sources[k].kind
    requires ChecksOnly(xs, d.sources) && ClaimsKind(ys, e.sources, WEB_SUMMARY, |e.sources|)
    ensures forall i, j, k | 0 <= i < |xs| && 0 <= j < |ys| :: !(k in xs[i].calls && k in ys[j].calls)
  {
    KindsDiffer();
    forall i, j, k | 0 <= i < |xs| && 0 <= j < |ys| ensures !(k in xs[i].calls && k in ys[j].calls) {
      assert CheckClaim(xs[i], d.sources) && KindClaim(ys[j], e.sources, WEB_SUMMARY, |e.sources|);
    }
  }

  lemma KindsDiffer()
    ensures CHECK_STAGE1 != WEB_SUMMARY && CHECK_STAGE2 != WEB_SUMMARY
    ensures CHECK_STAGE1 != PLAN_NAME_GEN && CHECK_STAGE2 != PLAN_NAME_GEN && WEB_SUMMARY != PLAN_NAME_GEN
  {
    assert |CHECK_STAGE1.name| == |CHECK_STAGE2.name| == 32;
    assert |WEB_SUMMARY.name| == 20 && |PLAN_NAME_GEN.name| == 22;
  }

  lemma PlansApart(d: Derived, e: Derived, f: Derived, xs: seq<Claim>, ys: seq<Claim>, zs: seq<Claim>)
    requires |e.sources| == |d.sources| && forall k | 0 <= k < |d.sources| :: e.sources[k].kind == d.sources[k].kind
    requires |f.sources| == |e.sources| && forall k | 0 <= k < |e.sources| :: f.sources[k].kind == e.sources[k].kind
    requires ChecksOnly(xs, d.sources) && ClaimsKind(ys, e.sources, WEB_SUMMARY, |e.sources|)
    requires ClaimsKind(zs, f.sources, PLAN_NAME_GEN, |f.sources|)
    ensures forall i, j, k | 0 <= i < |xs + ys| && 0 <= j < |zs| :: !(k in (xs + ys)[i].calls && k in zs[j].calls)
  {
    KindsDiffer();
    forall i, j, k | 0 <= i < |xs + ys| && 0 <= j < |zs| ensures !(k in (xs + ys)[i].calls && k in zs[j].calls) {
      assert KindClaim(zs[j], f.sources, PLAN_NAME_GEN, |f.sources|);
      if i < |xs| {
        assert CheckClaim(xs[i], d.sources);
      } else {
        assert KindClaim(ys[i - |xs|], e.sources, WEB_SUMMARY, |e.sources|);
      }
    }
  }

  // ---------------------------------------------------------------- what follows

  ghost function Claimed(claims: seq<Claim>): set<nat> {
    set i | 0 <= i < |claims| :: claims[i].tool
  }

  lemma {:induction false} ClaimsCountTools(claims: seq<Claim>)
    requires ToolsOnce(claims)
    ensures |Claimed(claims)| == |claims|
  {
    if claims != [] {
      var rest, c := claims[..|claims| - 1], claims[|claims| - 1];
      ClaimsCountTools(rest);
      assert Claimed(claims) == Claimed(rest) + {c.tool};
      assert c.tool !in Claimed(rest);
    }
  }

  /** The three counters add up to the number of tools consumed. */
  lemma CountersSumToConsumed(texts: Texts, d: Derived)
    requires forall t | 0 <= t < |d.tools| :: !d.tools[t].consumed
    ensures var r := AttachAll(texts, d);
            |r.0.tools| == |d.tools| && |r.1| == |set t | 0 <= t < |d.tools| && r.0.tools[t].consumed|
  {
    hide AttachAll, OnlyAnchors;
    AttachSettles(texts, d);
    var r := AttachAll(texts, d);
    ClaimsCountTools(r.1);
    SettledTools(d, r.0, r.1);
    var consumed := set t | 0 <= t < |d.tools| && r.0.tools[t].consumed;
    assert consumed == Claimed(r.1) by {
      forall t | t in Claimed(r.1) ensures t in consumed {
        assert ToolClaimed(r.1, t);
      }
    }
  }

  /** With distinct tool ids, calls of different claims never share an anchor. */
  lemma ClaimsHaveDistinctAnchors(texts: Texts, d: Derived, i: nat, j: nat, k: nat, l: nat)
    requires forall s, t | 0 <= s < t < |d.tools| :: d.tools[s].id != d.tools[t].id
    requires var r := AttachAll(texts, d);
             i < j < |r.1| && k in r.1[i].calls && l in r.1[j].calls && k < |d.sources| && l < |d.sources|
    ensures var r := AttachAll(texts, d);
            |r.0.sources| == |d.sources| && r.0.sources[k].anchor != r.0.sources[l].anchor
  {
    hide AttachAll;
    AttachSettles(texts, d);
  }

  /** Two checks that name different threads are never in one group. */
  lemma ThreadsNeverShareAGroup(sources: seq<Source>, g: nat, k: nat, l: nat)
    requires g < |Groups(sources, |sources|)|
    requires var order := Groups(sources, |sources|); k in order[g].calls && l in order[g].calls
    ensures k < |sources| && l < |sources| && sources[k].action == sources[l].action
    ensures sources[k].thread != "" && sources[l].thread != "" ==> sources[k].thread == sources[l].thread
  {
    hide Groups;
    GroupsPartitionChecks(sources, |sources|);
    assert GroupOk(sources, Groups(sources, |sources|)[g], |sources|);
  }
}
