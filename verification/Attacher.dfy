/** The attach passes as they run, on the deriver's own candidates, sources and nodes. */
module Attacher {
  import opened Llm
  import opened DeriveModel
  import opened DeriverModel
  import opened AttachModel
  import opened AttachClaims
  import opened Deriver

  method GroupChecks(sources: seq<Source>) returns (order: seq<Group>)
    ensures order == Groups(sources, |sources|)
  {
    order := [];
    var i := 0;
    while i < |sources|
      invariant 0 <= i <= |sources|
      invariant order == Groups(sources, i)
    {
      var s := sources[i];
      if IsCheck(s) {
        var j := 0;
        while j < |order| && !Joins(order[j], s)
          invariant 0 <= j <= |order|
          invariant FindGroup(order, s, 0) == FindGroup(order, s, j)
        {
          j := j + 1;
        }
        if j == |order| {
          order := order + [Group(s.action, s.thread, [i])];
        } else {
          var g := order[j];
          g := g.(calls := g.calls + [i]);
          if g.thread == "" { g := g.(thread := s.thread); }
          order := order[j := g];
        }
      }
      i := i + 1;
    }
  }

  method MatchToolUse(texts: Texts, tools: seq<ToolRef>, g: Group, sameThread: bool) returns (t: Option<nat>)
    ensures t == MatchTool(texts, tools, g, sameThread, 0)
  {
    var i := 0;
    while i < |tools|
      invariant 0 <= i <= |tools|
      invariant MatchTool(texts, tools, g, sameThread, 0) == MatchTool(texts, tools, g, sameThread, i)
    {
      if !tools[i].consumed && (!sameThread || tools[i].thread == g.thread) && texts.fits(tools[i], g.action) {
        return Some(i);
      }
      i := i + 1;
    }
    t := None;
  }

  method MostRecent(tools: seq<ToolRef>, eligible: ToolRef -> bool, at: nat) returns (best: Option<nat>)
    ensures best == Latest(tools, eligible, at, |tools|)
  {
    best := None;
    var i := 0;
    while i < |tools|
      invariant 0 <= i <= |tools|
      invariant best == Latest(tools, eligible, at, i)
    {
      if eligible(tools[i]) && !tools[i].consumed && tools[i].atTurn <= at {
        if best.None? || tools[i].atTurn >= tools[best.value].atTurn { best := Some(i); }
      }
      i := i + 1;
    }
  }

  /** The anchor on one call, and the edge on its own nodes. */
  method Anchor(dv: StreamingDeriver, k: nat, id: string)
    requires k < |dv.sources|
    modifies dv`sources, dv`byHash
    ensures dv.State() == AnchorCall(old(dv.State()), k, id)
  {
    var s := dv.sources[k];
    dv.sources := dv.sources[k := s.(anchor := id)];
    var n := 0;
    while n < |s.chain|
      invariant 0 <= n <= |s.chain|
      invariant dv.sources == old(dv.sources)[k := s.(anchor := id)]
      invariant dv.byHash == StampOwn(old(dv.byHash), s, id, n)
    {
      var h := s.chain[n];
      if h in dv.byHash && dv.byHash[h].node.kind == s.kind {
        dv.byHash := dv.byHash[h := dv.byHash[h].(node := dv.byHash[h].node.(forkStamp := id))];
      }
      n := n + 1;
    }
  }

  method ConsumeFor(dv: StreamingDeriver, t: nat, calls: seq<nat>)
    requires t < |dv.tools| && forall k | k in calls :: k < |dv.sources|
    modifies dv`tools, dv`sources, dv`byHash
    ensures dv.State() == Attach(old(dv.State()), Claim(t, calls))
  {
    hide StampOwn;
    var id := dv.tools[t].id;
    dv.tools := dv.tools[t := dv.tools[t].(consumed := true)];
    ghost var consumed := dv.State();
    assert consumed == Consume(old(dv.State()), t);
    var i := 0;
    while i < |calls|
      invariant 0 <= i <= |calls| && |dv.sources| == |old(dv.sources)|
      invariant dv.State() == AnchorCalls(consumed, calls[..i], id)
    {
      assert calls[..i + 1][..i] == calls[..i];
      assert calls[i] in calls;
      Anchor(dv, calls[i], id);
      i := i + 1;
    }
    assert calls[..i] == calls;
  }

  lemma KindsKept(d: Derived, c: Claim)
    requires c.tool < |d.tools|
    ensures var e := Attach(d, c);
            |e.sources| == |d.sources| && forall k | 0 <= k < |d.sources| :: e.sources[k].kind == d.sources[k].kind
  {
    hide Attach;
    AttachMeans(d, c);
    forall k | 0 <= k < |d.sources| ensures Attach(d, c).sources[k].kind == d.sources[k].kind {
      assert Attach(d, c).sources[k] == d.sources[k].(anchor := Attach(d, c).sources[k].anchor);
    }
  }

  method AttachVerdictCalls(dv: StreamingDeriver, texts: Texts) returns (attached: nat, judged: nat)
    modifies dv`tools, dv`sources, dv`byHash
    ensures dv.State() == AttachVerdicts(texts, old(dv.State())).0
    ensures attached == |AttachVerdicts(texts, old(dv.State())).1| && judged == |Groups(old(dv.sources), |old(dv.sources)|)|
  {
    hide Attach, MatchTool, GroupOk;
    ghost var d := dv.State();
    var order := GroupChecks(dv.sources);
    GroupsPartitionChecks(d.sources, |d.sources|);
    attached, judged := 0, |order|;
    var i := 0;
    while i < |order|
      invariant 0 <= i <= |order| && |dv.sources| == |d.sources|
      invariant dv.State() == AttachGroups(texts, d, order, i).0 && attached == |AttachGroups(texts, d, order, i).1|
    {
      var g := order[i];
      MembersBelow(d.sources, g, |d.sources|);
      var t := MatchToolUse(texts, dv.tools, g, true);
      if t.None? { t := MatchToolUse(texts, dv.tools, g, false); }
      assert t == MatchGroup(texts, dv.tools, g);
      if t.Some? {
        KindsKept(dv.State(), Claim(t.value, g.calls));
        ConsumeFor(dv, t.value, g.calls);
        attached := attached + 1;
      }
      i := i + 1;
    }
  }

  method AttachRecentCalls(dv: StreamingDeriver, kind: Kind, eligible: ToolRef -> bool) returns (attached: nat)
    modifies dv`tools, dv`sources, dv`byHash
    ensures dv.State() == AttachRecent(old(dv.State()), kind, eligible, |old(dv.sources)|).0
    ensures attached == |AttachRecent(old(dv.State()), kind, eligible, |old(dv.sources)|).1|
  {
    hide Attach;
    ghost var d := dv.State();
    attached := 0;
    var i := 0;
    while i < |dv.sources|
      invariant 0 <= i <= |dv.sources| == |d.sources|
      invariant forall k | 0 <= k < |d.sources| :: dv.sources[k].kind == d.sources[k].kind
      invariant dv.State() == AttachRecent(d, kind, eligible, i).0 && attached == |AttachRecent(d, kind, eligible, i).1|
    {
      if dv.sources[i].kind == kind {
        var t := MostRecent(dv.tools, eligible, i);
        if t.Some? {
          KindsKept(dv.State(), Claim(t.value, [i]));
          ConsumeFor(dv, t.value, [i]);
          attached := attached + 1;
        }
      }
      i := i + 1;
    }
  }

  /** Finish: the three passes, and counters that add up to the tools they consumed. */
  method Finish(dv: StreamingDeriver, texts: Texts) returns (verdicts: nat, judged: nat, webs: nat, plans: nat)
    requires forall t | 0 <= t < |dv.tools| :: !dv.tools[t].consumed
    modifies dv`tools, dv`sources, dv`byHash
    ensures dv.State() == AttachAll(texts, old(dv.State())).0
    ensures var checked := AttachVerdicts(texts, old(dv.State()));
            var summed := AttachRecent(checked.0, WEB_SUMMARY, WebTools, |checked.0.sources|);
            && judged == |Groups(old(dv.sources), |old(dv.sources)|)|
            && verdicts == |checked.1| && webs == |summed.1| && verdicts + webs + plans == |AttachAll(texts, old(dv.State())).1|
    ensures verdicts + webs + plans == |set t | 0 <= t < |dv.tools| && dv.tools[t].consumed|
  {
    hide AttachVerdicts, AttachRecent;
    verdicts, judged := AttachVerdictCalls(dv, texts);
    webs := AttachRecentCalls(dv, WEB_SUMMARY, WebTools);
    plans := AttachRecentCalls(dv, PLAN_NAME_GEN, texts.isPlan);
    CountersSumToConsumed(texts, old(dv.State()));
    assert verdicts + webs + plans == |AttachAll(texts, old(dv.State())).1|;
  }
}
