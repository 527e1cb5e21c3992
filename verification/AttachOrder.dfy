/** Which tool each check, web summary and plan gets, read off the captured calls and tools:
    the choices in order, what they stamp, and the groups the checks fall into. */
module AttachOrder {
  import opened Llm
  import opened DeriveModel
  import opened DeriverModel
  import opened AttachModel
  import opened AttachClaims

  // ---------------------------------------------------------------- the choices

  /** Tool t was free at the start and no earlier choice took it. */
  ghost predicate Free(tools: seq<ToolRef>, taken: seq<Option<nat>>, t: nat) {
    t < |tools| && !tools[t].consumed && Some(t) !in taken
  }

  ghost predicate Judged(texts: Texts, tools: seq<ToolRef>, taken: seq<Option<nat>>, g: Group, t: nat) {
    Free(tools, taken, t) && texts.fits(tools[t], g.action)
  }

  ghost predicate OwnJudged(texts: Texts, tools: seq<ToolRef>, taken: seq<Option<nat>>, g: Group, t: nat) {
    Judged(texts, tools, taken, g, t) && tools[t].thread == g.thread
  }

  /** The choice of one group: the first free fitting tool of its own thread; only where there
      is none, the first of any thread; and none only where nothing free fits. */
  ghost predicate Picks(texts: Texts, tools: seq<ToolRef>, taken: seq<Option<nat>>, g: Group, pick: Option<nat>) {
    if exists t :: OwnJudged(texts, tools, taken, g, t) then
      pick.Some? && OwnJudged(texts, tools, taken, g, pick.value)
      && forall u | 0 <= u < pick.value :: !OwnJudged(texts, tools, taken, g, u)
    else if exists t :: Judged(texts, tools, taken, g, t) then
      pick.Some? && Judged(texts, tools, taken, g, pick.value)
      && forall u | 0 <= u < pick.value :: !Judged(texts, tools, taken, g, u)
    else pick == None
  }

  ghost predicate Verdicts(texts: Texts, tools: seq<ToolRef>, order: seq<Group>, picks: seq<Option<nat>>) {
    |picks| == |order| && forall n | 0 <= n < |order| :: Picks(texts, tools, picks[..n], order[n], picks[n])
  }

  /** The claims these choices make: one per group that got a tool, for all its checks. */
  ghost function GroupClaims(order: seq<Group>, picks: seq<Option<nat>>): seq<Claim>
    requires |picks| == |order|
  {
    if picks == [] then []
    else
      var n := |picks| - 1;
      GroupClaims(order[..n], picks[..n]) + (if picks[n].Some? then [Claim(picks[n].value, order[n].calls)] else [])
  }

  ghost predicate Candidate(tools: seq<ToolRef>, taken: seq<Option<nat>>, eligible: ToolRef -> bool, at: nat, t: nat) {
    Free(tools, taken, t) && eligible(tools[t]) && tools[t].atTurn <= at
  }

  /** The choice of one web summary or plan: the most recently captured candidate not after
      it, the last of those captured together. */
  ghost predicate PicksRecent(tools: seq<ToolRef>, taken: seq<Option<nat>>, eligible: ToolRef -> bool, at: nat, pick: Option<nat>) {
    if exists t :: Candidate(tools, taken, eligible, at, t) then
      && pick.Some? && Candidate(tools, taken, eligible, at, pick.value)
      && forall u: nat | Candidate(tools, taken, eligible, at, u) && u != pick.value ::
           tools[u].atTurn < tools[pick.value].atTurn || (tools[u].atTurn == tools[pick.value].atTurn && u < pick.value)
    else pick == None
  }

  ghost predicate Recents(tools: seq<ToolRef>, base: seq<Option<nat>>, sources: seq<Source>, kind: Kind, eligible: ToolRef -> bool,
                          picks: seq<Option<nat>>) {
    && |picks| <= |sources|
    && forall n | 0 <= n < |picks| ::
         if sources[n].kind == kind then PicksRecent(tools, base + picks[..n], eligible, n, picks[n]) else picks[n] == None
  }

  ghost function CallClaims(picks: seq<Option<nat>>): seq<Claim> {
    if picks == [] then []
    else
      var n := |picks| - 1;
      CallClaims(picks[..n]) + (if picks[n].Some? then [Claim(picks[n].value, [n])] else [])
  }

  // ---------------------------------------------------------------- the verdict pass

  /** The tools of a state reached by some choices: as at the start, save that the taken ones
      are consumed. */
  ghost predicate Consumed(start: seq<ToolRef>, tools: seq<ToolRef>, taken: seq<Option<nat>>) {
    && |tools| == |start|
    && forall t | 0 <= t < |start| :: tools[t] == start[t].(consumed := start[t].consumed || Some(t) in taken)
  }

  lemma ConsumedMore(start: seq<ToolRef>, tools: seq<ToolRef>, taken: seq<Option<nat>>, t: nat)
    requires Consumed(start, tools, taken) && t < |tools|
    ensures Consumed(start, tools[t := tools[t].(consumed := true)], taken + [Some(t)])
  {
  }

  lemma ConsumedNone(start: seq<ToolRef>, tools: seq<ToolRef>, taken: seq<Option<nat>>)
    requires Consumed(start, tools, taken)
    ensures Consumed(start, tools, taken + [None])
  {
  }

  lemma FreeNow(start: seq<ToolRef>, tools: seq<ToolRef>, taken: seq<Option<nat>>, t: nat)
    requires Consumed(start, tools, taken) && t < |tools|
    ensures Free(start, taken, t) <==> !tools[t].consumed
    ensures !tools[t].consumed ==> tools[t] == start[t]
    ensures tools[t].thread == start[t].thread && tools[t].atTurn == start[t].atTurn
  {
  }

  predicate Hits(texts: Texts, tools: seq<ToolRef>, g: Group, sameThread: bool, t: nat)
    requires t < |tools|
  {
    !tools[t].consumed && (!sameThread || tools[t].thread == g.thread) && texts.fits(tools[t], g.action)
  }

  lemma {:induction false} MatchIsFirst(texts: Texts, tools: seq<ToolRef>, g: Group, sameThread: bool, i: nat)
    requires i <= |tools|
    ensures var r := MatchTool(texts, tools, g, sameThread, i);
            if r.Some? then i <= r.value < |tools| && Hits(texts, tools, g, sameThread, r.value)
                            && forall u | i <= u < r.value :: !Hits(texts, tools, g, sameThread, u)
            else forall u | i <= u < |tools| :: !Hits(texts, tools, g, sameThread, u)
    decreases |tools| - i
  {
    if i < |tools| { MatchIsFirst(texts, tools, g, sameThread, i + 1); }
  }

  lemma GroupPicks(texts: Texts, start: seq<ToolRef>, tools: seq<ToolRef>, taken: seq<Option<nat>>, g: Group)
    requires Consumed(start, tools, taken)
    ensures Picks(texts, start, taken, g, MatchGroup(texts, tools, g))
  {
    hide MatchTool;
    MatchIsFirst(texts, tools, g, true, 0);
    MatchIsFirst(texts, tools, g, false, 0);
    forall t: nat | t < |tools|
      ensures OwnJudged(texts, start, taken, g, t) <==> Hits(texts, tools, g, true, t)
      ensures Judged(texts, start, taken, g, t) <==> Hits(texts, tools, g, false, t)
    {
      FreeNow(start, tools, taken, t);
    }
    hide Consumed, Free, Hits;
  }

  lemma AttachTools(d: Derived, c: Claim)
    requires c.tool < |d.tools|
    ensures Attach(d, c).tools == d.tools[c.tool := d.tools[c.tool].(consumed := true)]
  {
    hide AnchorCalls;
    AnchorCallsMean(Consume(d, c.tool), c.calls, d.tools[c.tool].id);
  }

  /** The verdict pass makes exactly these choices, group by group in the order of the groups. */
  lemma {:induction false} GroupsPickInOrder(texts: Texts, d: Derived, order: seq<Group>, n: nat) returns (picks: seq<Option<nat>>)
    requires n <= |order|
    ensures Verdicts(texts, d.tools, order[..n], picks)
    ensures AttachGroups(texts, d, order, n).1 == GroupClaims(order[..n], picks)
    ensures Consumed(d.tools, AttachGroups(texts, d, order, n).0.tools, picks)
  {
    hide MatchGroup, Attach, Picks;
    if n == 0 {
      picks := [];
    } else {
      var rest := GroupsPickInOrder(texts, d, order, n - 1);
      var before := AttachGroups(texts, d, order, n - 1);
      var pick := MatchGroup(texts, before.0.tools, order[n - 1]);
      GroupPicks(texts, d.tools, before.0.tools, rest, order[n - 1]);
      picks := rest + [pick];
      assert picks[..n - 1] == rest && order[..n][..n - 1] == order[..n - 1];
      forall m | 0 <= m < n ensures Picks(texts, d.tools, picks[..m], order[..n][m], picks[m]) {
        if m < n - 1 { assert picks[..m] == rest[..m] && order[..n][m] == order[..n - 1][m]; }
      }
      if pick.Some? {
        AttachTools(before.0, Claim(pick.value, order[n - 1].calls));
        ConsumedMore(d.tools, before.0.tools, rest, pick.value);
      } else {
        ConsumedNone(d.tools, before.0.tools, rest);
      }
    }
  }

  // ---------------------------------------------------------------- the recency passes

  lemma {:induction false} LatestIsLast(tools: seq<ToolRef>, eligible: ToolRef -> bool, at: nat, n: nat)
    requires n <= |tools|
    ensures var r := Latest(tools, eligible, at, n);
            r.Some? ==> forall u | 0 <= u < n && Open(tools[u], eligible, at) && u != r.value ::
                          tools[u].atTurn < tools[r.value].atTurn || (tools[u].atTurn == tools[r.value].atTurn && u < r.value)
  {
    if n > 0 { LatestIsLast(tools, eligible, at, n - 1); }
  }

  lemma RecentPicks(start: seq<ToolRef>, tools: seq<ToolRef>, taken: seq<Option<nat>>, eligible: ToolRef -> bool, at: nat)
    requires Consumed(start, tools, taken)
    ensures PicksRecent(start, taken, eligible, at, Latest(tools, eligible, at, |tools|))
  {
    hide Latest;
    LatestIsLast(tools, eligible, at, |tools|);
    forall t: nat | t < |tools| ensures Candidate(start, taken, eligible, at, t) <==> Open(tools[t], eligible, at) {
      FreeNow(start, tools, taken, t);
    }
    forall t: nat | t < |tools| ensures tools[t].atTurn == start[t].atTurn {
      FreeNow(start, tools, taken, t);
    }
    hide Consumed, Free, Open;
  }

  lemma AttachKinds(d: Derived, c: Claim)
    requires c.tool < |d.tools|
    ensures |Attach(d, c).sources| == |d.sources|
    ensures forall k | 0 <= k < |d.sources| :: Attach(d, c).sources[k].kind == d.sources[k].kind
  {
    hide Attach;
    AttachMeans(d, c);
    forall k | 0 <= k < |d.sources| ensures Attach(d, c).sources[k].kind == d.sources[k].kind {
      assert Attach(d, c).sources[k] == d.sources[k].(anchor := Attach(d, c).sources[k].anchor);
    }
  }

  lemma NoRecents(start: seq<ToolRef>, base: seq<Option<nat>>, sources: seq<Source>, kind: Kind, eligible: ToolRef -> bool)
    ensures Recents(start, base, sources, kind, eligible, [])
  {
  }

  lemma RecentsMore(start: seq<ToolRef>, base: seq<Option<nat>>, sources: seq<Source>, kind: Kind, eligible: ToolRef -> bool,
                    rest: seq<Option<nat>>, pick: Option<nat>)
    requires Recents(start, base, sources, kind, eligible, rest) && |rest| < |sources|
    requires if sources[|rest|].kind == kind then PicksRecent(start, base + rest, eligible, |rest|, pick) else pick == None
    ensures Recents(start, base, sources, kind, eligible, rest + [pick])
  {
    hide PicksRecent;
    var picks := rest + [pick];
    forall m | 0 <= m < |picks| ensures picks[..m] == rest[..m] {
    }
    assert rest[..|rest|] == rest;
  }

  lemma {:induction false} RecentPickInOrder(start: seq<ToolRef>, base: seq<Option<nat>>, d: Derived, kind: Kind,
                                             eligible: ToolRef -> bool, n: nat) returns (picks: seq<Option<nat>>)
    requires n <= |d.sources| && Consumed(start, d.tools, base)
    ensures |picks| == n && Recents(start, base, d.sources, kind, eligible, picks)
    ensures AttachRecent(d, kind, eligible, n).1 == CallClaims(picks)
    ensures var e := AttachRecent(d, kind, eligible, n).0;
            && Consumed(start, e.tools, base + picks) && |e.sources| == |d.sources|
            && forall k | 0 <= k < |d.sources| :: e.sources[k].kind == d.sources[k].kind
  {
    hide Latest, Attach, PicksRecent, Consumed, Recents;
    if n == 0 {
      NoRecents(start, base, d.sources, kind, eligible);
      picks := [];
      assert base + picks == base;
    } else {
      var rest := RecentPickInOrder(start, base, d, kind, eligible, n - 1);
      var before := AttachRecent(d, kind, eligible, n - 1);
      var pick := if d.sources[n - 1].kind == kind then Latest(before.0.tools, eligible, n - 1, |before.0.tools|) else None;
      RecentPicks(start, before.0.tools, base + rest, eligible, n - 1);
      picks := rest + [pick];
      assert picks[..n - 1] == rest && base + picks == (base + rest) + [pick];
      RecentsMore(start, base, d.sources, kind, eligible, rest, pick);
      if pick.Some? {
        AttachTools(before.0, Claim(pick.value, [n - 1]));
        AttachKinds(before.0, Claim(pick.value, [n - 1]));
        ConsumedMore(start, before.0.tools, base + rest, pick.value);
      } else {
        ConsumedNone(start, before.0.tools, base + rest);
      }
    }
  }

  // ---------------------------------------------------------------- all three passes

  lemma VerdictKinds(texts: Texts, d: Derived)
    ensures var e := AttachVerdicts(texts, d).0;
            |e.sources| == |d.sources| && forall k | 0 <= k < |d.sources| :: e.sources[k].kind == d.sources[k].kind
  {
    hide AttachVerdicts, Settled;
    VerdictsSettle(texts, d);
    SettledSources(d, AttachVerdicts(texts, d).0, AttachVerdicts(texts, d).1);
  }

  lemma RecentsRead(tools: seq<ToolRef>, base: seq<Option<nat>>, a: seq<Source>, b: seq<Source>, kind: Kind,
                    eligible: ToolRef -> bool, picks: seq<Option<nat>>)
    requires Recents(tools, base, a, kind, eligible, picks) && |b| == |a| && forall k | 0 <= k < |a| :: a[k].kind == b[k].kind
    ensures Recents(tools, base, b, kind, eligible, picks)
  {
    hide PicksRecent;
  }

  /** Every choice of the attach passes, from the tools and calls as they were derived: checks
      first, group by group, then web summaries, then plans, each from what is left. */
  lemma EveryChoiceInOrder(texts: Texts, d: Derived)
    returns (verdicts: seq<Option<nat>>, webs: seq<Option<nat>>, plans: seq<Option<nat>>)
    ensures var order := Groups(d.sources, |d.sources|);
            && Verdicts(texts, d.tools, order, verdicts)
            && |webs| == |plans| == |d.sources|
            && Recents(d.tools, verdicts, d.sources, WEB_SUMMARY, WebTools, webs)
            && Recents(d.tools, verdicts + webs, d.sources, PLAN_NAME_GEN, texts.isPlan, plans)
            && AttachAll(texts, d).1 == GroupClaims(order, verdicts) + CallClaims(webs) + CallClaims(plans)
  {
    hide Groups, AttachGroups, AttachRecent, Verdicts, Recents, Consumed, GroupClaims, CallClaims;
    var order := Groups(d.sources, |d.sources|);
    var v := AttachVerdicts(texts, d);
    verdicts := GroupsPickInOrder(texts, d, order, |order|);
    assert order[..|order|] == order;
    VerdictKinds(texts, d);
    webs := RecentPickInOrder(d.tools, verdicts, v.0, WEB_SUMMARY, WebTools, |v.0.sources|);
    var w := AttachRecent(v.0, WEB_SUMMARY, WebTools, |v.0.sources|);
    plans := RecentPickInOrder(d.tools, verdicts + webs, w.0, PLAN_NAME_GEN, texts.isPlan, |w.0.sources|);
    RecentsRead(d.tools, verdicts, v.0.sources, d.sources, WEB_SUMMARY, WebTools, webs);
    RecentsRead(d.tools, verdicts + webs, w.0.sources, d.sources, PLAN_NAME_GEN, texts.isPlan, plans);
  }

  // ---------------------------------------------------------------- what the claims write

  /** One write: call k is anchored to a tool id. */
  datatype Write = Write(call: nat, id: string)

  ghost function CallWrites(calls: seq<nat>, id: string): (r: seq<Write>)
    ensures |r| == |calls| && forall i | 0 <= i < |calls| :: r[i] == Write(calls[i], id)
  {
    if calls == [] then [] else CallWrites(calls[..|calls| - 1], id) + [Write(calls[|calls| - 1], id)]
  }

  ghost function Writes(tools: seq<ToolRef>, claims: seq<Claim>): seq<Write>
    requires forall i | 0 <= i < |claims| :: claims[i].tool < |tools|
  {
    if claims == [] then []
    else
      var c := claims[|claims| - 1];
      Writes(tools, claims[..|claims| - 1]) + CallWrites(c.calls, tools[c.tool].id)
  }

  /** A write reaches the nodes of its call's chain that are of the call's own kind: what an
      earlier call of another kind brought keeps its edge. */
  ghost predicate Reaches(d: Derived, w: Write, h: Hash) {
    w.call < |d.sources| && h in d.sources[w.call].chain && h in d.byHash && d.byHash[h].node.kind == d.sources[w.call].kind
  }

  /** The stamp the writes leave on a node: the last that reaches it. */
  ghost function StampLeft(d: Derived, ws: seq<Write>, h: Hash): string
    requires h in d.byHash
  {
    if ws == [] then d.byHash[h].node.forkStamp
    else if Reaches(d, ws[|ws| - 1], h) then ws[|ws| - 1].id
    else StampLeft(d, ws[..|ws| - 1], h)
  }

  /** e is d with other anchors and stamps. */
  ghost predicate SameShape(d: Derived, e: Derived) {
    && e.byHash.Keys == d.byHash.Keys && |e.sources| == |d.sources|
    && (forall h | h in d.byHash :: e.byHash[h].node.kind == d.byHash[h].node.kind)
    && (forall k | 0 <= k < |d.sources| :: e.sources[k].chain == d.sources[k].chain && e.sources[k].kind == d.sources[k].kind)
  }

  ghost predicate Stamps(d: Derived, e: Derived, ws: seq<Write>) {
    SameShape(d, e) && forall h | h in d.byHash :: e.byHash[h].node.forkStamp == StampLeft(d, ws, h)
  }

  lemma {:induction false} StampOwnMeans(byHash: map<Hash, Kept>, s: Source, id: string, n: nat, h: Hash)
    requires n <= |s.chain|
    ensures var m := StampOwn(byHash, s, id, n);
            && m.Keys == byHash.Keys
            && (h in byHash ==>
                  && m[h].node.kind == byHash[h].node.kind
                  && m[h].node.forkStamp == if h in s.chain[..n] && byHash[h].node.kind == s.kind then id else byHash[h].node.forkStamp)
  {
    if n > 0 {
      StampOwnMeans(byHash, s, id, n - 1, h);
      StampOwnMeans(byHash, s, id, n - 1, s.chain[n - 1]);
      assert s.chain[..n] == s.chain[..n - 1] + [s.chain[n - 1]];
    }
  }

  lemma CallStamps(e: Derived, w: Write, h: Hash)
    ensures var f := AnchorCall(e, w.call, w.id);
            && SameShape(e, f)
            && (h in e.byHash ==> f.byHash[h].node.forkStamp == if Reaches(e, w, h) then w.id else e.byHash[h].node.forkStamp)
  {
    hide StampOwn;
    if w.call < |e.sources| {
      var s := e.sources[w.call];
      assert s.chain[..|s.chain|] == s.chain;
      StampOwnOnly(e.byHash, s, w.id, |s.chain|);
      StampOwnMeans(e.byHash, s, w.id, |s.chain|, h);
      forall g | g in e.byHash ensures AnchorCall(e, w.call, w.id).byHash[g].node.kind == e.byHash[g].node.kind {
        StampOwnMeans(e.byHash, s, w.id, |s.chain|, g);
      }
    }
  }

  lemma AnchorStamps(d: Derived, e: Derived, ws: seq<Write>, w: Write)
    requires Stamps(d, e, ws)
    ensures Stamps(d, AnchorCall(e, w.call, w.id), ws + [w])
  {
    hide AnchorCall;
    var f, all := AnchorCall(e, w.call, w.id), ws + [w];
    assert all[..|ws|] == ws;
    assert SameShape(e, f) by {
      if h :| h in e.byHash { CallStamps(e, w, h); } else { CallStamps(e, w, H(Digest(User, []), None)); }
    }
    forall h | h in d.byHash ensures f.byHash[h].node.forkStamp == StampLeft(d, all, h) {
      CallStamps(e, w, h);
      assert Reaches(e, w, h) <==> Reaches(d, w, h);
    }
  }

  lemma {:induction false} AnchorsStamp(d: Derived, e: Derived, ws: seq<Write>, calls: seq<nat>, id: string)
    requires Stamps(d, e, ws)
    ensures Stamps(d, AnchorCalls(e, calls, id), ws + CallWrites(calls, id))
  {
    hide Stamps, AnchorCall;
    if calls == [] {
      assert ws + CallWrites([], id) == ws;
    } else {
      var rest, k := calls[..|calls| - 1], calls[|calls| - 1];
      AnchorsStamp(d, e, ws, rest, id);
      AnchorStamps(d, AnchorCalls(e, rest, id), ws + CallWrites(rest, id), Write(k, id));
      assert ws + CallWrites(calls, id) == (ws + CallWrites(rest, id)) + [Write(k, id)];
    }
  }

  /** Any list of claims, made one after the other. */
  ghost function AttachList(d: Derived, claims: seq<Claim>): (e: Derived)
    requires forall i | 0 <= i < |claims| :: claims[i].tool < |d.tools|
    ensures |e.tools| == |d.tools| && forall t | 0 <= t < |d.tools| :: e.tools[t].id == d.tools[t].id
  {
    if claims == [] then d
    else
      var before, c := AttachList(d, claims[..|claims| - 1]), claims[|claims| - 1];
      AttachTools(before, c);
      Attach(before, c)
  }

  lemma ConsumeStamps(d: Derived, e: Derived, ws: seq<Write>, t: nat)
    requires Stamps(d, e, ws) && t < |e.tools|
    ensures Stamps(d, Consume(e, t), ws)
  {
  }

  lemma {:induction false} ListStamps(d: Derived, claims: seq<Claim>)
    requires forall i | 0 <= i < |claims| :: claims[i].tool < |d.tools|
    ensures Stamps(d, AttachList(d, claims), Writes(d.tools, claims))
  {
    if claims == [] {
    } else {
      hide Stamps, AnchorCalls;
      var rest, c := claims[..|claims| - 1], claims[|claims| - 1];
      ListStamps(d, rest);
      var before := AttachList(d, rest);
      ConsumeStamps(d, before, Writes(d.tools, rest), c.tool);
      AnchorsStamp(d, Consume(before, c.tool), Writes(d.tools, rest), c.calls, before.tools[c.tool].id);
    }
  }

  ghost predicate InTools(claims: seq<Claim>, n: nat) {
    forall i | 0 <= i < |claims| :: claims[i].tool < n
  }

  lemma ListSnoc(d: Derived, claims: seq<Claim>, c: Claim)
    requires InTools(claims, |d.tools|) && c.tool < |d.tools|
    ensures InTools(claims + [c], |d.tools|)
    ensures AttachList(d, claims + [c]) == Attach(AttachList(d, claims), c)
  {
    hide Attach;
    assert (claims + [c])[..|claims|] == claims;
  }

  lemma {:induction false} GroupsAreList(texts: Texts, d: Derived, order: seq<Group>, n: nat)
    requires n <= |order|
    ensures var r := AttachGroups(texts, d, order, n); InTools(r.1, |d.tools|) && r.0 == AttachList(d, r.1)
  {
    hide Attach, MatchGroup, AttachList;
    if n == 0 {
      NoList(d);
    } else {
      GroupsAreList(texts, d, order, n - 1);
      var before := AttachGroups(texts, d, order, n - 1);
      var at := MatchGroup(texts, before.0.tools, order[n - 1]);
      if at.Some? { ListSnoc(d, before.1, Claim(at.value, order[n - 1].calls)); }
    }
  }

  lemma NoList(d: Derived)
    ensures AttachList(d, []) == d
  {
  }

  lemma {:induction false} RecentIsList(d0: Derived, past: seq<Claim>, d: Derived, kind: Kind, eligible: ToolRef -> bool, n: nat)
    requires InTools(past, |d0.tools|) && d == AttachList(d0, past) && n <= |d.sources|
    ensures var r := AttachRecent(d, kind, eligible, n); InTools(past + r.1, |d0.tools|) && r.0 == AttachList(d0, past + r.1)
  {
    hide Attach, Latest, AttachList;
    if n == 0 {
      assert past + [] == past;
    } else {
      RecentIsList(d0, past, d, kind, eligible, n - 1);
      var before := AttachRecent(d, kind, eligible, n - 1);
      var at := Latest(before.0.tools, eligible, n - 1, |before.0.tools|);
      if d.sources[n - 1].kind == kind && at.Some? {
        var c := Claim(at.value, [n - 1]);
        ListSnoc(d0, past + before.1, c);
        assert past + (before.1 + [c]) == (past + before.1) + [c];
      }
    }
  }

  /** Every node's stamp after the passes: the tool of the last claiming call that carries the
      node and is of its kind, or what it was. */
  lemma StampsFollowClaims(texts: Texts, d: Derived)
    ensures var r := AttachAll(texts, d); InTools(r.1, |d.tools|) && Stamps(d, r.0, Writes(d.tools, r.1))
  {
    hide AttachGroups, AttachRecent, AttachList, Stamps, Writes, Groups;
    var order := Groups(d.sources, |d.sources|);
    var v := AttachVerdicts(texts, d);
    GroupsAreList(texts, d, order, |order|);
    RecentIsList(d, v.1, v.0, WEB_SUMMARY, WebTools, |v.0.sources|);
    var w := AttachRecent(v.0, WEB_SUMMARY, WebTools, |v.0.sources|);
    RecentIsList(d, v.1 + w.1, w.0, PLAN_NAME_GEN, texts.isPlan, |w.0.sources|);
    ListStamps(d, AttachAll(texts, d).1);
  }

  // ---------------------------------------------------------------- the groups

  /** Groups of one action name different threads. */
  ghost predicate ThreadsApart(order: seq<Group>) {
    forall i, j | 0 <= i < j < |order| && order[i].action == order[j].action ::
      order[i].thread != "" && order[j].thread != "" && order[i].thread != order[j].thread
  }

  /** A check outside its action's first group names a thread, and not as the first to do so. */
  ghost predicate FirstTakes(sources: seq<Source>, order: seq<Group>) {
    forall i, j | 0 <= i < j < |order| && order[i].action == order[j].action :: TakenBefore(sources, order[i], order[j])
  }

  /** Every check of the later group names a thread after the earlier one had. */
  ghost predicate TakenBefore(sources: seq<Source>, g: Group, later: Group) {
    forall k | k in later.calls :: k < |sources| && sources[k].thread != "" && NamedBefore(sources, g, k)
  }

  ghost predicate NamedBefore(sources: seq<Source>, g: Group, k: nat) {
    exists l :: l in g.calls && l < k && l < |sources| && sources[l].thread != ""
  }

  /** Checks stand in capture order, and groups in the order of their first checks. */
  ghost predicate Ascending(order: seq<Group>) {
    && (forall i, a, b | 0 <= i < |order| && 0 <= a < b < |order[i].calls| :: order[i].calls[a] < order[i].calls[b])
    && (forall i | 0 <= i < |order| :: order[i].calls != [])
    && (forall i, j | 0 <= i < j < |order| :: order[i].calls[0] < order[j].calls[0])
  }

  ghost predicate Forced(sources: seq<Source>, order: seq<Group>) {
    ThreadsApart(order) && FirstTakes(sources, order) && Ascending(order)
  }

  ghost predicate CallsBelow(order: seq<Group>, n: nat) {
    forall i, k | 0 <= i < |order| && k in order[i].calls :: k < n
  }

  ghost predicate Spoken(sources: seq<Source>, order: seq<Group>) {
    forall i | 0 <= i < |order| && order[i].thread != "" ::
      exists l :: l in order[i].calls && l < |sources| && sources[l].thread != ""
  }

  lemma {:induction false} FirstJoined(order: seq<Group>, s: Source, i: nat)
    requires i <= |order|
    ensures var at := FindGroup(order, s, i);
            forall j | i <= j < (if at.Some? then at.value else |order|) :: j < |order| && !Joins(order[j], s)
    decreases |order| - i
  {
    if i < |order| && !Joins(order[i], s) { FirstJoined(order, s, i + 1); }
  }

  function Widened(g: Group, s: Source, k: nat): Group {
    Group(g.action, if g.thread == "" then s.thread else g.thread, g.calls + [k])
  }

  lemma NewApart(order: seq<Group>, s: Source, k: nat)
    requires ThreadsApart(order) && forall j | 0 <= j < |order| :: !Joins(order[j], s)
    ensures ThreadsApart(order + [Group(s.action, s.thread, [k])])
  {
    var r := order + [Group(s.action, s.thread, [k])];
    forall i, j | 0 <= i < j < |r| && r[i].action == r[j].action
      ensures r[i].thread != "" && r[j].thread != "" && r[i].thread != r[j].thread
    {
      if j == |order| { assert !Joins(order[i], s); }
    }
  }

  lemma JoinApart(order: seq<Group>, s: Source, k: nat, at: nat)
    requires ThreadsApart(order) && at < |order| && Joins(order[at], s)
    ensures ThreadsApart(order[at := Widened(order[at], s, k)])
  {
    var r := order[at := Widened(order[at], s, k)];
    forall i, j | 0 <= i < j < |r| && r[i].action == r[j].action
      ensures r[i].thread != "" && r[j].thread != "" && r[i].thread != r[j].thread
    {
      assert order[i].action == order[j].action;
    }
  }

  lemma Named(sources: seq<Source>, order: seq<Group>, i: nat, k: nat)
    requires Spoken(sources, order) && CallsBelow(order, k) && i < |order| && order[i].thread != ""
    ensures NamedBefore(sources, order[i], k)
  {
    var l :| l in order[i].calls && l < |sources| && sources[l].thread != "";
  }

  lemma TakenFirst(sources: seq<Source>, order: seq<Group>, i: nat, j: nat, k: nat)
    requires FirstTakes(sources, order) && i < j < |order| && order[i].action == order[j].action && k in order[j].calls
    ensures k < |sources| && sources[k].thread != "" && NamedBefore(sources, order[i], k)
  {
    assert TakenBefore(sources, order[i], order[j]);
  }

  lemma NewTakes(sources: seq<Source>, order: seq<Group>, k: nat)
    requires FirstTakes(sources, order) && Spoken(sources, order) && CallsBelow(order, k) && k < |sources|
    requires forall j | 0 <= j < |order| :: !Joins(order[j], sources[k])
    ensures FirstTakes(sources, order + [Group(sources[k].action, sources[k].thread, [k])])
  {
    hide NamedBefore, Spoken, CallsBelow;
    var r := order + [Group(sources[k].action, sources[k].thread, [k])];
    forall i, j | 0 <= i < j < |r| && r[i].action == r[j].action ensures TakenBefore(sources, r[i], r[j]) {
      if j == |order| {
        assert !Joins(order[i], sources[k]) && order[i].thread != "";
        Named(sources, order, i, k);
      } else {
        assert TakenBefore(sources, order[i], order[j]);
      }
    }
  }

  lemma StillNamed(sources: seq<Source>, g: Group, s: Source, k: nat, m: nat)
    requires NamedBefore(sources, g, m)
    ensures NamedBefore(sources, Widened(g, s, k), m)
  {
    var l :| l in g.calls && l < m && l < |sources| && sources[l].thread != "";
    assert l in Widened(g, s, k).calls;
  }

  lemma JoinsMeans(g: Group, s: Source)
    ensures Joins(g, s) ==> g.action == s.action
    ensures !Joins(g, s) && g.action == s.action ==> s.thread != "" && g.thread != "" && g.thread != s.thread
  {
  }

  lemma JoinTakesAt(sources: seq<Source>, order: seq<Group>, k: nat, at: nat, i: nat, j: nat, m: nat)
    requires FirstTakes(sources, order) && Spoken(sources, order) && CallsBelow(order, k) && k < |sources| && at < |order|
    requires Joins(order[at], sources[k]) && forall j | 0 <= j < at :: !Joins(order[j], sources[k])
    requires var r := order[at := Widened(order[at], sources[k], k)];
             i < j < |order| && r[i].action == r[j].action && m in r[j].calls
    ensures var r := order[at := Widened(order[at], sources[k], k)];
            m < |sources| && sources[m].thread != "" && NamedBefore(sources, r[i], m)
  {
    hide NamedBefore, Spoken, CallsBelow;
    if j == at && m !in order[at].calls {
      assert m == k;
      JoinsMeans(order[i], sources[k]);
      Named(sources, order, i, k);
    } else {
      TakenFirst(sources, order, i, j, m);
      if i == at { StillNamed(sources, order[at], sources[k], k, m); }
    }
  }

  lemma JoinTakes(sources: seq<Source>, order: seq<Group>, k: nat, at: nat, r: seq<Group>)
    requires FirstTakes(sources, order) && Spoken(sources, order) && CallsBelow(order, k) && k < |sources| && at < |order|
    requires Joins(order[at], sources[k]) && forall j | 0 <= j < at :: !Joins(order[j], sources[k])
    requires r == order[at := Widened(order[at], sources[k], k)]
    ensures FirstTakes(sources, r)
  {
    forall i: nat, j: nat | i < j < |r| && r[i].action == r[j].action
      ensures TakenBefore(sources, r[i], r[j])
    {
      forall m | m in r[j].calls ensures m < |sources| && sources[m].thread != "" && NamedBefore(sources, r[i], m) {
        JoinTakesAt(sources, order, k, at, i, j, m);
      }
    }
  }

  lemma MembersAreBelow(order: seq<Group>, k: nat)
    requires CallsBelow(order, k)
    ensures forall i, a | 0 <= i < |order| && 0 <= a < |order[i].calls| :: order[i].calls[a] < k
  {
    forall i, a | 0 <= i < |order| && 0 <= a < |order[i].calls| ensures order[i].calls[a] < k {
      assert order[i].calls[a] in order[i].calls;
    }
  }

  lemma AscendingMore(order: seq<Group>, g: Group, k: nat, at: nat, s: Source)
    requires Ascending(order) && CallsBelow(order, k)
    ensures g.calls == [k] ==> Ascending(order + [g])
    ensures at < |order| ==> Ascending(order[at := Widened(order[at], s, k)])
  {
    MembersAreBelow(order, k);
  }

  lemma NewGroupOk(sources: seq<Source>, order: seq<Group>, k: nat)
    requires Forced(sources, order) && Spoken(sources, order) && CallsBelow(order, k) && k < |sources|
    requires forall j | 0 <= j < |order| :: !Joins(order[j], sources[k])
    ensures var r := order + [Group(sources[k].action, sources[k].thread, [k])];
            Forced(sources, r) && Spoken(sources, r) && CallsBelow(r, k + 1)
  {
    hide Joins, ThreadsApart, FirstTakes, Ascending;
    var s := sources[k];
    var g := Group(s.action, s.thread, [k]);
    NewApart(order, s, k);
    NewTakes(sources, order, k);
    AscendingMore(order, g, k, |order|, s);
    assert k in g.calls;
  }

  lemma JoinedGroupOk(sources: seq<Source>, order: seq<Group>, k: nat, at: nat)
    requires Forced(sources, order) && Spoken(sources, order) && CallsBelow(order, k) && k < |sources| && at < |order|
    requires Joins(order[at], sources[k]) && forall j | 0 <= j < at :: !Joins(order[j], sources[k])
    ensures var r := order[at := Widened(order[at], sources[k], k)];
            Forced(sources, r) && Spoken(sources, r) && CallsBelow(r, k + 1)
  {
    hide Joins, ThreadsApart, FirstTakes, Ascending;
    JoinApart(order, sources[k], k, at);
    JoinTakes(sources, order, k, at, order[at := Widened(order[at], sources[k], k)]);
    AscendingMore(order, order[at], k, at, sources[k]);
    JoinSpoken(sources, order, k, at);
  }

  lemma {:induction false} GroupsAreForced(sources: seq<Source>, n: nat)
    requires n <= |sources|
    ensures var order := Groups(sources, n); Forced(sources, order) && Spoken(sources, order) && CallsBelow(order, n)
  {
    if n > 0 {
      GroupsAreForced(sources, n - 1);
      var order, s := Groups(sources, n - 1), sources[n - 1];
      FirstJoined(order, s, 0);
      hide Forced, Spoken, CallsBelow, IsCheck, Joins;
      if !IsCheck(s) {
        StillBelow(order, n - 1);
      } else if FindGroup(order, s, 0).None? {
        NewGroupOk(sources, order, n - 1);
      } else {
        JoinedGroupOk(sources, order, n - 1, FindGroup(order, s, 0).value);
      }
    }
  }

  lemma StillBelow(order: seq<Group>, n: nat)
    requires CallsBelow(order, n)
    ensures CallsBelow(order, n + 1)
  {
  }

  lemma JoinSpoken(sources: seq<Source>, order: seq<Group>, k: nat, at: nat)
    requires Spoken(sources, order) && k < |sources| && at < |order|
    ensures Spoken(sources, order[at := Widened(order[at], sources[k], k)])
  {
    var g := order[at];
    var h := Widened(g, sources[k], k);
    if h.thread != "" {
      if g.thread == "" {
        assert k in h.calls;
      } else {
        var l :| l in g.calls && l < |sources| && sources[l].thread != "";
        assert l in h.calls;
      }
    }
  }

  /** The grouping is forced: together with the groups being a partition of the checks by
      action and thread, this leaves nothing about them open. */
  lemma GroupingIsForced(sources: seq<Source>)
    ensures Forced(sources, Groups(sources, |sources|)) && GroupsOk(sources, Groups(sources, |sources|), |sources|)
  {
    hide Groups, Forced, GroupsOk;
    GroupsAreForced(sources, |sources|);
    GroupsPartitionChecks(sources, |sources|);
  }
}
