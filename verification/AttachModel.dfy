/** The attach passes on values: permission checks grouped by action and thread, web
    summaries and plans by recency, each consuming the tool_use it attaches to. */
module AttachModel {
  import opened Llm
  import opened DeriveModel
  import opened DeriverModel

  const CHECK_STAGE1 := Shadow("offshoot:permission-check:stage1")
  const CHECK_STAGE2 := Shadow("offshoot:permission-check:stage2")
  const WEB_SUMMARY := Shadow("offshoot:web-summary")
  const PLAN_NAME_GEN := Shadow("offshoot:plan-name-gen")

  /** The checks of one judged action; calls are indices into the sources. */
  datatype Group = Group(action: string, thread: string, calls: seq<nat>)

  /** One attachment: a tool_use and the calls anchored to it. */
  datatype Claim = Claim(tool: nat, calls: seq<nat>)

  /** What the matcher and the plan filter decide from text alone. */
  datatype Texts = Texts(fits: (ToolRef, string) -> bool, isPlan: ToolRef -> bool)

  predicate IsCheck(s: Source) {
    (s.kind == CHECK_STAGE1 || s.kind == CHECK_STAGE2) && s.action != ""
  }

  predicate Joins(g: Group, s: Source) {
    g.action == s.action && (s.thread == "" || g.thread == "" || g.thread == s.thread)
  }

  /** The first group a check joins, from position i. */
  function FindGroup(order: seq<Group>, s: Source, i: nat): (r: Option<nat>)
    requires i <= |order|
    ensures r.Some? ==> r.value < |order| && Joins(order[r.value], s)
    decreases |order| - i
  {
    if i == |order| then None else if Joins(order[i], s) then Some(i) else FindGroup(order, s, i + 1)
  }

  function AddCheck(order: seq<Group>, s: Source, k: nat): seq<Group> {
    match FindGroup(order, s, 0)
    case None => order + [Group(s.action, s.thread, [k])]
    case Some(i) =>
      var g := order[i];
      order[i := Group(g.action, if g.thread == "" then s.thread else g.thread, g.calls + [k])]
  }

  function Groups(sources: seq<Source>, n: nat): seq<Group>
    requires n <= |sources|
  {
    if n == 0 then []
    else
      var order := Groups(sources, n - 1);
      if IsCheck(sources[n - 1]) then AddCheck(order, sources[n - 1], n - 1) else order
  }

  /** matchToolUse: the first unconsumed candidate that fits, from position i. */
  function MatchTool(texts: Texts, tools: seq<ToolRef>, g: Group, sameThread: bool, i: nat): (r: Option<nat>)
    requires i <= |tools|
    ensures r.Some? ==> i <= r.value < |tools| && !tools[r.value].consumed && texts.fits(tools[r.value], g.action)
    ensures r.None? ==> forall k | i <= k < |tools| :: tools[k].consumed || !texts.fits(tools[k], g.action)
                                                       || (sameThread && tools[k].thread != g.thread)
    decreases |tools| - i
  {
    if i == |tools| then None
    else if !tools[i].consumed && (!sameThread || tools[i].thread == g.thread) && texts.fits(tools[i], g.action) then Some(i)
    else MatchTool(texts, tools, g, sameThread, i + 1)
  }

  /** Own thread first, then any. */
  function MatchGroup(texts: Texts, tools: seq<ToolRef>, g: Group): (r: Option<nat>)
    ensures r.Some? ==> r.value < |tools| && !tools[r.value].consumed && texts.fits(tools[r.value], g.action)
    ensures r.None? ==> forall k | 0 <= k < |tools| :: tools[k].consumed || !texts.fits(tools[k], g.action)
  {
    var own := MatchTool(texts, tools, g, true, 0);
    if own.Some? then own else MatchTool(texts, tools, g, false, 0)
  }

  /** The latest unconsumed eligible candidate not after call at, among the first n. */
  function Latest(tools: seq<ToolRef>, eligible: ToolRef -> bool, at: nat, n: nat): (r: Option<nat>)
    requires n <= |tools|
    ensures r.Some? ==> r.value < n && Open(tools[r.value], eligible, at)
    ensures r.None? ==> forall k | 0 <= k < n :: !Open(tools[k], eligible, at)
    ensures r.Some? ==> forall k | 0 <= k < n && Open(tools[k], eligible, at) :: tools[k].atTurn <= tools[r.value].atTurn
  {
    if n == 0 then None
    else
      var best := Latest(tools, eligible, at, n - 1);
      if Open(tools[n - 1], eligible, at) && (best.None? || tools[n - 1].atTurn >= tools[best.value].atTurn) then Some(n - 1) else best
  }

  predicate Open(u: ToolRef, eligible: ToolRef -> bool, at: nat) {
    eligible(u) && !u.consumed && u.atTurn <= at
  }

  // ---------------------------------------------------------------- what one attachment writes

  /** The edge goes on the call's own nodes only: a shared node keeps its first kind. */
  function StampOwn(byHash: map<Hash, Kept>, s: Source, id: string, n: nat): map<Hash, Kept>
    requires n <= |s.chain|
  {
    if n == 0 then byHash
    else
      var m := StampOwn(byHash, s, id, n - 1);
      var h := s.chain[n - 1];
      if h in m && m[h].node.kind == s.kind then m[h := m[h].(node := m[h].node.(forkStamp := id))] else m
  }

  function AnchorCall(d: Derived, k: nat, id: string): Derived {
    if k < |d.sources| then
      d.(sources := d.sources[k := d.sources[k].(anchor := id)],
         byHash := StampOwn(d.byHash, d.sources[k], id, |d.sources[k].chain|))
    else d
  }

  function AnchorCalls(d: Derived, calls: seq<nat>, id: string): Derived {
    if calls == [] then d else AnchorCall(AnchorCalls(d, calls[..|calls| - 1], id), calls[|calls| - 1], id)
  }

  function Consume(d: Derived, t: nat): Derived
    requires t < |d.tools|
  {
    d.(tools := d.tools[t := d.tools[t].(consumed := true)])
  }

  function Attach(d: Derived, c: Claim): Derived
    requires c.tool < |d.tools|
  {
    AnchorCalls(Consume(d, c.tool), c.calls, d.tools[c.tool].id)
  }

  // ---------------------------------------------------------------- the passes

  function AttachGroups(texts: Texts, d: Derived, order: seq<Group>, n: nat): (Derived, seq<Claim>)
    requires n <= |order|
  {
    if n == 0 then (d, [])
    else
      var before := AttachGroups(texts, d, order, n - 1);
      var g := order[n - 1];
      match MatchGroup(texts, before.0.tools, g)
      case None => before
      case Some(t) => (Attach(before.0, Claim(t, g.calls)), before.1 + [Claim(t, g.calls)])
  }

  /** attachVerdicts */
  function AttachVerdicts(texts: Texts, d: Derived): (Derived, seq<Claim>) {
    var order := Groups(d.sources, |d.sources|);
    AttachGroups(texts, d, order, |order|)
  }

  /** attachWebSummaries and attachPlans: the most recent eligible tool_use at or before. */
  function AttachRecent(d: Derived, kind: Kind, eligible: ToolRef -> bool, n: nat): (r: (Derived, seq<Claim>))
    requires n <= |d.sources|
  {
    if n == 0 then (d, [])
    else
      var before := AttachRecent(d, kind, eligible, n - 1);
      if d.sources[n - 1].kind != kind then before
      else
        match Latest(before.0.tools, eligible, n - 1, |before.0.tools|)
        case None => before
        case Some(t) => (Attach(before.0, Claim(t, [n - 1])), before.1 + [Claim(t, [n - 1])])
  }

  function WebTools(u: ToolRef): bool {
    u.web
  }

  /** Finish: the three passes in order, and every claim they made. */
  function AttachAll(texts: Texts, d: Derived): (Derived, seq<Claim>) {
    var verdicts := AttachVerdicts(texts, d);
    var webs := AttachRecent(verdicts.0, WEB_SUMMARY, WebTools, |verdicts.0.sources|);
    var plans := AttachRecent(webs.0, PLAN_NAME_GEN, texts.isPlan, |webs.0.sources|);
    (plans.0, verdicts.1 + webs.1 + plans.1)
  }
}
