/** The span projection as values: traces, spans and links, and what each emitter step
    does to them. A Go reference to a span is a (trace index, span index) pair here, which
    stays good because the walk only ever appends. */
module SpanModel {
  import opened Llm
  import opened DeriveModel

  /** A call's deterministic id suffix: its request id, or response hash and row. */
  datatype CallId = ByRequest(requestId: string) | ByRow(hash: Hash, row: nat)

  datatype TraceId = Trace(opener: CallId)

  datatype SpanId =
    | RootAgent(opener: CallId)
    | SubAgent(thread: string)
    | LlmCall(call: CallId)
    | ToolCall(toolUse: string)
    | EventOf(node: Hash)

  datatype SpanKind = AgentSpan | LlmSpan | ToolSpan | EventSpan

  /** The part of a span written once, at creation. */
  datatype Fixed = Fixed(
    id: SpanId,
    parent: Option<SpanId>,
    kind: SpanKind,
    callKind: Option<Kind>,
    thread: string,
    model: string,
    usage: Option<Usage>,
    startedAt: int,
    input: seq<ContentBlock>)

  datatype Span = Span(fixed: Fixed, output: seq<ContentBlock>, failed: bool, duration: int)

  datatype LinkKind = Emits | Feeds | Rejoin | Verdict | CompactionSeam

  datatype Link = Link(
    fromTrace: TraceId, fromSpan: SpanId,
    toTrace: TraceId, toSpan: SpanId,
    kind: LinkKind)

  datatype Synthetic = Genuine | PostCompaction | ShadowOpener

  datatype Turn = Turn(
    traceId: TraceId,
    session: Session,
    prompt: Option<Hash>,
    synthetic: Synthetic,
    startedAt: int,
    endedAt: int,
    spans: seq<Span>,
    links: seq<Link>)

  datatype Ref = Ref(turn: nat, span: nat)

  /** spanEmitter. tools stands for toolSpans and toolTurn, agents for agentSpan and
      agentTurn: both pairs are always written together. */
  datatype Em = Em(
    turns: seq<Turn>,
    cross: seq<Link>,
    cur: map<Session, nat>,
    timeline: map<Session, seq<nat>>,
    tools: map<Key, Ref>,
    agents: map<Key, Ref>,
    seam: map<Session, Ref>,
    synthetic: nat,
    orphans: nat)

  const EMPTY := Em([], [], map[], map[], map[], map[], map[], 0, 0)

  // ---------------------------------------------------------------- well-formedness

  ghost predicate Points(turns: seq<Turn>, r: Ref, s: Session, kind: SpanKind, id: SpanId) {
    && r.turn < |turns|
    && r.span < |turns[r.turn].spans|
    && turns[r.turn].session == s
    && turns[r.turn].spans[r.span].fixed.kind == kind
    && turns[r.turn].spans[r.span].fixed.id == id
  }

  ghost predicate TurnOf(turns: seq<Turn>, t: int, s: Session) {
    0 <= t < |turns| && turns[t].session == s
  }

  ghost predicate Line(turns: seq<Turn>, line: seq<nat>, s: Session) {
    line != [] && forall i | 0 <= i < |line| :: TurnOf(turns, line[i], s)
  }

  ghost predicate Armed(turns: seq<Turn>, r: Ref, s: Session) {
    TurnOf(turns, r.turn, s) && r.span < |turns[r.turn].spans|
  }

  ghost predicate NoEmptyTurn(turns: seq<Turn>) {
    forall t | 0 <= t < |turns| :: turns[t].spans != []
  }

  /** Every reference the emitter holds is good and belongs to the session it is filed
      under; an armed seam presupposes that its session already has a trace. */
  ghost predicate Valid(em: Em) {
    match em
    case Em(turns, _, cur, timeline, tools, agents, seam, _, _) =>
      && NoEmptyTurn(turns)
      && cur.Keys == timeline.Keys
      && seam.Keys <= cur.Keys
      && (forall s | s in cur :: TurnOf(turns, cur[s], s))
      && (forall s | s in timeline :: Line(turns, timeline[s], s))
      && (forall k | k in tools :: Points(turns, tools[k], k.session, ToolSpan, ToolCall(k.id)))
      && (forall k | k in agents :: Points(turns, agents[k], k.session, AgentSpan, SubAgent(k.id)))
      && (forall s | s in seam :: Armed(turns, seam[s], s))
  }

  /** The registrations of b are those of a plus the given keys. */
  ghost predicate Gains(a: map<Key, Ref>, b: map<Key, Ref>, keys: set<Key>) {
    forall k :: k in b <==> k in a || k in keys
  }

  ghost predicate SameIndex(a: Em, b: Em) {
    b.cur == a.cur && b.timeline == a.timeline && b.tools == a.tools && b.agents == a.agents && b.seam == a.seam
  }

  ghost predicate SameCounts(a: Em, b: Em) {
    b.synthetic == a.synthetic && b.orphans == a.orphans
  }

  // ---------------------------------------------------------------- monotonicity

  ghost predicate SpanGrows(p: Span, q: Span) {
    q.fixed == p.fixed && (p.output != [] ==> q.output == p.output)
  }

  ghost predicate SpansGrow(x: seq<Span>, y: seq<Span>) {
    |x| <= |y| && forall i | 0 <= i < |x| :: SpanGrows(x[i], y[i])
  }

  ghost predicate TurnGrows(x: Turn, y: Turn) {
    && y.traceId == x.traceId && y.session == x.session
    && y.startedAt == x.startedAt && y.prompt == x.prompt
    && SpansGrow(x.spans, y.spans)
    && x.links <= y.links
  }

  ghost predicate TurnsGrow(x: seq<Turn>, y: seq<Turn>) {
    |x| <= |y| && forall t | 0 <= t < |x| :: TurnGrows(x[t], y[t])
  }

  /** b only adds to a: no trace, span, link or registration is lost or moved, nothing
      written at creation changes, and a tool result once stored is never replaced. */
  ghost predicate Grows(a: Em, b: Em) {
    match b
    case Em(turns, cross, cur, _, tools, agents, _, _, _) =>
      && TurnsGrow(a.turns, turns)
      && a.cross <= cross
      && (forall k | k in a.tools :: k in tools && tools[k] == a.tools[k])
      && (forall k | k in a.agents :: k in agents && agents[k] == a.agents[k])
      && a.cur.Keys <= cur.Keys
  }

  lemma TurnsGrowTransitive(a: seq<Turn>, b: seq<Turn>, c: seq<Turn>)
    requires TurnsGrow(a, b) && TurnsGrow(b, c)
    ensures TurnsGrow(a, c)
  {
    forall t | 0 <= t < |a| ensures TurnGrows(a[t], c[t]) {
      assert TurnGrows(a[t], b[t]) && TurnGrows(b[t], c[t]);
      forall i | 0 <= i < |a[t].spans| ensures SpanGrows(a[t].spans[i], c[t].spans[i]) {
        assert SpanGrows(a[t].spans[i], b[t].spans[i]) && SpanGrows(b[t].spans[i], c[t].spans[i]);
      }
    }
  }

  lemma GrowsReflexive(a: Em)
    ensures Grows(a, a)
  {
  }

  lemma GrowsTransitive(a: Em, b: Em, c: Em)
    requires Grows(a, b) && Grows(b, c)
    ensures Grows(a, c)
  {
    TurnsGrowTransitive(a.turns, b.turns, c.turns);
  }

  /** Replacing one turn by a larger one grows the turns and keeps every reference good. */
  lemma TurnReplaced(em: Em, t: nat, turn: Turn)
    requires Valid(em) && t < |em.turns| && TurnGrows(em.turns[t], turn)
    ensures TurnsGrow(em.turns, em.turns[t := turn])
    ensures Valid(em.(turns := em.turns[t := turn]))
    ensures Grows(em, em.(turns := em.turns[t := turn]))
  {
    StillValid(em, em.turns[t := turn]);
  }

  lemma StillValid(em: Em, turns: seq<Turn>)
    requires Valid(em) && TurnsGrow(em.turns, turns) && NoEmptyTurn(turns)
    ensures Valid(em.(turns := turns))
  {
    forall s | s in em.timeline ensures Line(turns, em.timeline[s], s) {
      assert Line(em.turns, em.timeline[s], s);
      forall i | 0 <= i < |em.timeline[s]| ensures TurnOf(turns, em.timeline[s][i], s) {
        assert TurnOf(em.turns, em.timeline[s][i], s);
      }
    }
    forall k | k in em.tools ensures Points(turns, em.tools[k], k.session, ToolSpan, ToolCall(k.id)) {
      PointsStill(em.turns, turns, em.tools[k], k.session, ToolSpan, ToolCall(k.id));
    }
    forall k | k in em.agents ensures Points(turns, em.agents[k], k.session, AgentSpan, SubAgent(k.id)) {
      PointsStill(em.turns, turns, em.agents[k], k.session, AgentSpan, SubAgent(k.id));
    }
    forall s | s in em.seam ensures Armed(turns, em.seam[s], s) {
      assert Armed(em.turns, em.seam[s], s);
    }
  }

  lemma PointsStill(x: seq<Turn>, y: seq<Turn>, r: Ref, s: Session, kind: SpanKind, id: SpanId)
    requires TurnsGrow(x, y) && Points(x, r, s, kind, id)
    ensures Points(y, r, s, kind, id)
  {
    assert TurnGrows(x[r.turn], y[r.turn]);
    assert SpanGrows(x[r.turn].spans[r.span], y[r.turn].spans[r.span]);
  }

  lemma CurrentTurn(em: Em, s: Session)
    requires Valid(em) && s in em.cur
    ensures TurnOf(em.turns, em.cur[s], s) && em.turns[em.cur[s]].spans != []
    ensures s in em.timeline && Line(em.turns, em.timeline[s], s)
  {
  }

  lemma ToolPlace(em: Em, k: Key)
    requires Valid(em) && k in em.tools
    ensures Points(em.turns, em.tools[k], k.session, ToolSpan, ToolCall(k.id))
  {
  }

  lemma AgentPlace(em: Em, k: Key)
    requires Valid(em) && k in em.agents
    ensures Points(em.turns, em.agents[k], k.session, AgentSpan, SubAgent(k.id))
  {
  }

  lemma SeamPlace(em: Em, s: Session)
    requires Valid(em) && s in em.seam
    ensures s in em.cur && Armed(em.turns, em.seam[s], s)
  {
  }

  /** Traces keep their place, session and first span while the emitter grows. */
  lemma TurnStays(a: Em, b: Em, t: nat)
    requires Grows(a, b) && t < |a.turns|
    ensures t < |b.turns| && TurnGrows(a.turns[t], b.turns[t])
    ensures |a.turns[t].spans| <= |b.turns[t].spans|
  {
  }

  // ---------------------------------------------------------------- reading a call

  function Identity(c: Call): CallId
    requires c.chain != []
  {
    if c.requestId != "" then ByRequest(c.requestId) else ByRow(c.Response().hash, c.rawTurn)
  }

  /** A compaction inside a sub-thread is an ordinary thread call. */
  function CallKindOf(c: Call): Kind {
    if c.kind == Compaction && c.thread != "" then Main else c.kind
  }

  predicate FreshAssistant(c: Call, i: nat)
    requires c.Valid() && i < |c.chain|
  {
    c.isNew[i] && c.chain[i].bucket.role == Assistant
  }

  /** The last fresh assistant position below n, or -1. */
  function LastFresh(c: Call, n: nat): (last: int)
    requires c.Valid() && n <= |c.chain|
    ensures -1 <= last < n
  {
    if n == 0 then -1
    else if FreshAssistant(c, n - 1) then n - 1
    else LastFresh(c, n - 1)
  }

  /** The resume boundary: the response leaf is not part of the request. */
  function Boundary(c: Call): (last: int)
    requires c.Valid() && c.chain != []
  {
    LastFresh(c, |c.chain| - 1)
  }

  /** A user node this call captured first, after the resume boundary, not injected. */
  predicate FreshUser(c: Call, i: nat)
    requires c.Valid() && i < |c.chain|
  {
    && c.isNew[i] && i > Boundary(c)
    && c.chain[i].bucket.role == User && !c.chain[i].kind.Injected?
  }

  predicate HasResult(blocks: seq<ContentBlock>) {
    exists j :: 0 <= j < |blocks| && blocks[j].kind == ToolResult
  }

  /** freshGenuinePrompt: the last fresh user node below n carrying no tool result. */
  function FreshPrompt(c: Call, n: nat): Option<Hash>
    requires c.Valid() && n <= |c.chain|
  {
    if n == 0 then None
    else if FreshUser(c, n - 1) && !HasResult(c.chain[n - 1].bucket.content) then Some(c.chain[n - 1].hash)
    else FreshPrompt(c, n - 1)
  }

  function Prompt(c: Call): Option<Hash>
    requires c.Valid() && c.chain != []
  {
    FreshPrompt(c, |c.chain| - 1)
  }

  function DropResults(blocks: seq<ContentBlock>): seq<ContentBlock> {
    if blocks == [] then []
    else
      var head := DropResults(blocks[..|blocks| - 1]);
      var b := blocks[|blocks| - 1];
      if b.kind == ToolResult then head else head + [b]
  }

  /** freshInput: the blocks new to this call, tool results excluded. */
  function InputBelow(c: Call, n: nat): seq<ContentBlock>
    requires c.Valid() && n <= |c.chain|
  {
    if n == 0 then []
    else
      var head := InputBelow(c, n - 1);
      if FreshUser(c, n - 1) then head + DropResults(c.chain[n - 1].bucket.content) else head
  }

  function FreshInput(c: Call): seq<ContentBlock>
    requires c.Valid() && c.chain != []
  {
    InputBelow(c, |c.chain| - 1)
  }

  function RootStamp(chain: seq<Node>, i: nat): string
    requires i <= |chain|
    decreases |chain| - i
  {
    if i == |chain| then ""
    else if chain[i].hash.parent == None && chain[i].forkStamp != "" then chain[i].forkStamp
    else RootStamp(chain, i + 1)
  }

  /** threadAnchor: the per-call anchor wins over the chain-root stamp. */
  function Anchor(c: Call): string {
    if c.anchor != "" then c.anchor else RootStamp(c.chain, 0)
  }

  function ThreadKey(c: Call): Key {
    Key(c.session, c.thread)
  }

  // ---------------------------------------------------------------- primitive steps

  function SpanEnd(sp: Span): int {
    sp.fixed.startedAt + sp.duration
  }

  /** addSpan */
  function AddSpan(em: Em, t: nat, sp: Span): (r: Em)
    requires Valid(em) && t < |em.turns|
    ensures Valid(r) && Grows(em, r)
    ensures |r.turns| == |em.turns| && r.cross == em.cross && SameIndex(em, r) && SameCounts(em, r)
    ensures Points(r.turns, Ref(t, |em.turns[t].spans|), em.turns[t].session, sp.fixed.kind, sp.fixed.id)
  {
    var turn := em.turns[t].(spans := em.turns[t].spans + [sp], endedAt := Max(em.turns[t].endedAt, SpanEnd(sp)));
    TurnReplaced(em, t, turn);
    em.(turns := em.turns[t := turn])
  }

  /** link: kept on the host trace when both ends carry the same trace id. */
  function AddLink(em: Em, host: nat, l: Link): (r: Em)
    requires Valid(em) && host < |em.turns|
    ensures Valid(r) && Grows(em, r)
    ensures |r.turns| == |em.turns| && SameIndex(em, r) && SameCounts(em, r)
  {
    if l.fromTrace == l.toTrace then
      var turn := em.turns[host].(links := em.turns[host].links + [l]);
      TurnReplaced(em, host, turn);
      em.(turns := em.turns[host := turn])
    else
      em.(cross := em.cross + [l])
  }

  function SpanAt(em: Em, r: Ref): Span
    requires r.turn < |em.turns| && r.span < |em.turns[r.turn].spans|
  {
    em.turns[r.turn].spans[r.span]
  }

  function SetSpan(em: Em, r: Ref, sp: Span): (e: Em)
    requires Valid(em)
    requires r.turn < |em.turns| && r.span < |em.turns[r.turn].spans|
    requires SpanGrows(SpanAt(em, r), sp)
    ensures Valid(e) && Grows(em, e)
  {
    var turn := em.turns[r.turn].(spans := em.turns[r.turn].spans[r.span := sp]);
    TurnReplaced(em, r.turn, turn);
    em.(turns := em.turns[r.turn := turn])
  }

  function ToolSpanOf(c: Call, parent: SpanId, b: ContentBlock): Span {
    Span(Fixed(ToolCall(b.toolUseId), Some(parent), ToolSpan, None, c.thread, "", None, c.at, [b]), [], false, 0)
  }

  function AgentSpanOf(c: Call, parent: SpanId): Span {
    Span(Fixed(SubAgent(c.thread), Some(parent), AgentSpan, None, c.thread, "", None, c.at, []), [], false, 0)
  }

  function RootSpanOf(c: Call): Span
    requires c.chain != []
  {
    Span(Fixed(RootAgent(Identity(c)), None, AgentSpan, None, "", "", None, c.at, []), [], false, 0)
  }

  function LlmSpanOf(c: Call, parent: SpanId, input: seq<ContentBlock>): Span
    requires c.chain != []
  {
    var resp := c.Response();
    Span(Fixed(LlmCall(Identity(c)), Some(parent), LlmSpan, Some(CallKindOf(c)), c.thread,
               resp.bucket.model, resp.usage, c.at, input),
         resp.bucket.content, false,
         if resp.usage.Some? then resp.usage.value.durationNs else 0)
  }

  function EventSpanOf(c: Call, parent: SpanId, kind: Kind, n: Node): Span {
    Span(Fixed(EventOf(n.hash), Some(parent), EventSpan, Some(kind), "", "", None, n.capturedAt,
               n.bucket.content), [], false, 0)
  }

  /** fillToolResult: the first result wins. Returns the tool whose result is fresh. */
  function Fill(em: Em, s: Session, b: ContentBlock, at: int): (r: (Em, Option<Key>))
    requires Valid(em)
    ensures Valid(r.0) && Grows(em, r.0)
    ensures r.1.Some? ==> r.1.value in em.tools && r.1.value.session == s
  {
    var k := Key(s, if b.toolResultId != "" then b.toolResultId else b.toolUseId);
    if k !in em.tools || SpanAt(em, em.tools[k]).output != [] then (em, None)
    else
      var ts := SpanAt(em, em.tools[k]);
      var d := at - ts.fixed.startedAt;
      (SetSpan(em, em.tools[k],
               ts.(output := [b], failed := ts.failed || b.isError, duration := if d > 0 then d else ts.duration)),
       Some(k))
  }

  lemma TurnPushed(em: Em, turn: Turn)
    requires Valid(em) && turn.spans != []
    ensures
      var line := if turn.session in em.timeline then em.timeline[turn.session] else [];
      var r := em.(turns := em.turns + [turn], cur := em.cur[turn.session := |em.turns|],
                   timeline := em.timeline[turn.session := line + [|em.turns|]]);
      Valid(r) && Grows(em, r)
  {
    var turns := em.turns + [turn];
    assert TurnsGrow(em.turns, turns) && NoEmptyTurn(turns);
    StillValid(em, turns);
    PushedValid(em.(turns := turns), turn.session, |em.turns|);
  }

  /** Filing one more trace of s keeps a valid emitter valid. */
  lemma PushedValid(em: Em, s: Session, t: nat)
    requires Valid(em) && TurnOf(em.turns, t, s)
    ensures
      var line := if s in em.timeline then em.timeline[s] else [];
      Valid(em.(cur := em.cur[s := t], timeline := em.timeline[s := line + [t]]))
  {
    var line := if s in em.timeline then em.timeline[s] else [];
    assert s in em.timeline ==> Line(em.turns, line, s);
    assert Line(em.turns, line + [t], s);
  }

  /** Appends a trace and makes it its session's current one. */
  function PushTurn(em: Em, turn: Turn): (r: Em)
    requires Valid(em) && turn.spans != []
    ensures Valid(r) && Grows(em, r)
    ensures r.turns == em.turns + [turn] && r.cross == em.cross && r.cur == em.cur[turn.session := |em.turns|]
    ensures r.tools == em.tools && r.agents == em.agents && r.seam == em.seam && SameCounts(em, r)
  {
    var line := if turn.session in em.timeline then em.timeline[turn.session] else [];
    var turns := em.turns + [turn];
    TurnPushed(em, turn);
    em.(turns := turns, cur := em.cur[turn.session := |em.turns|],
        timeline := em.timeline[turn.session := line + [|em.turns|]])
  }

  /** Adds a tool span at the end of turn t and registers it under k. */
  function AddTool(em: Em, t: nat, sp: Span, k: Key): (r: Em)
    requires Valid(em) && TurnOf(em.turns, t, k.session) && k !in em.tools
    requires sp.fixed.kind == ToolSpan && sp.fixed.id == ToolCall(k.id)
    ensures Valid(r) && Grows(em, r)
    ensures |r.turns| == |em.turns|
    ensures r.tools == em.tools[k := Ref(t, |em.turns[t].spans|)] && r.cross == em.cross
    ensures r.cur == em.cur && r.agents == em.agents && r.seam == em.seam && SameCounts(em, r)
  {
    var added := AddSpan(em, t, sp);
    added.(tools := em.tools[k := Ref(t, |em.turns[t].spans|)])
  }

  function AddAgent(em: Em, t: nat, sp: Span, k: Key): (r: Em)
    requires Valid(em) && TurnOf(em.turns, t, k.session) && k !in em.agents
    requires sp.fixed.kind == AgentSpan && sp.fixed.id == SubAgent(k.id)
    ensures Valid(r) && Grows(em, r)
    ensures |r.turns| == |em.turns|
    ensures r.agents == em.agents[k := Ref(t, |em.turns[t].spans|)] && r.cross == em.cross
    ensures r.cur == em.cur && r.tools == em.tools && r.seam == em.seam && SameCounts(em, r)
  {
    var added := AddSpan(em, t, sp);
    added.(agents := em.agents[k := Ref(t, |em.turns[t].spans|)])
  }

  /** Marks turn t synthetic and counts it. */
  function MarkSynthetic(em: Em, t: nat, why: Synthetic): (r: Em)
    requires Valid(em) && t < |em.turns|
    ensures Valid(r) && Grows(em, r)
    ensures |r.turns| == |em.turns| && r.cross == em.cross && SameIndex(em, r)
    ensures r.synthetic == em.synthetic + 1 && r.orphans == em.orphans
  {
    TurnReplaced(em, t, em.turns[t].(synthetic := why));
    em.(turns := em.turns[t := em.turns[t].(synthetic := why)], synthetic := em.synthetic + 1)
  }

  function TurnOpenedBy(c: Call, prompt: Option<Hash>): Turn
    requires c.chain != []
  {
    Turn(Trace(Identity(c)), c.session, prompt, Genuine, c.at, c.at, [RootSpanOf(c)], [])
  }

  function SeamLink(em: Em, c: Call): Link
    requires Valid(em) && c.chain != [] && c.session in em.seam
  {
    SeamPlace(em, c.session);
    var from := em.seam[c.session];
    Link(em.turns[from.turn].traceId, SpanAt(em, from).fixed.id,
         Trace(Identity(c)), LlmCall(Identity(c)), CompactionSeam)
  }

  function ArmSeam(em: Em, s: Session, at: Ref): (r: Em)
    requires Valid(em) && s in em.cur && Armed(em.turns, at, s)
    ensures Valid(r) && Grows(em, r)
    ensures r.turns == em.turns && r.cross == em.cross && SameCounts(em, r)
    ensures r.cur == em.cur && r.tools == em.tools && r.agents == em.agents && r.seam == em.seam[s := at]
  {
    em.(seam := em.seam[s := at])
  }

  function CountOrphan(em: Em): (r: Em)
    requires Valid(em)
    ensures Valid(r) && Grows(em, r)
    ensures r.turns == em.turns && r.cross == em.cross && SameIndex(em, r)
    ensures r.synthetic == em.synthetic && r.orphans == em.orphans + 1
  {
    em.(orphans := em.orphans + 1)
  }

  /** Turn t becomes the continuation of its session's armed seam. */
  function TakeSeam(em: Em, s: Session, t: nat): (r: Em)
    requires Valid(em) && t < |em.turns|
    ensures Valid(r) && Grows(em, r)
    ensures |r.turns| == |em.turns|
    ensures r.cross == em.cross && r.cur == em.cur && r.tools == em.tools && r.agents == em.agents
    ensures r.seam == em.seam - {s} && r.synthetic == em.synthetic + 1 && r.orphans == em.orphans
  {
    MarkSynthetic(em, t, PostCompaction).(seam := em.seam - {s})
  }

  /** The armed seam closes on the trace t just opened by c. */
  function CloseSeam(em: Em, c: Call, t: nat): (r: Em)
    requires Valid(em) && c.chain != [] && t < |em.turns| && c.session in em.seam
    ensures Valid(r) && Grows(em, r)
    ensures |r.turns| == |em.turns|
    ensures r.cur == em.cur && r.tools == em.tools && r.agents == em.agents
    ensures r.seam == em.seam - {c.session} && r.synthetic == em.synthetic + 1 && r.orphans == em.orphans
  {
    hide Valid, Grows;
    var taken := TakeSeam(em, c.session, t);
    var r := AddLink(taken, t, SeamLink(em, c));
    GrowsTransitive(em, taken, r);
    r
  }

  /** openTrace */
  function OpenTrace(em: Em, c: Call, prompt: Option<Hash>): (r: Em)
    requires Valid(em) && c.chain != []
    ensures Valid(r) && Grows(em, r)
    ensures r.cur == em.cur[c.session := |em.turns|] && |r.turns| == |em.turns| + 1
    ensures r.tools == em.tools && r.agents == em.agents
  {
    hide Valid, Grows;
    var pushed := PushTurn(em, TurnOpenedBy(c, prompt));
    if c.session !in em.seam then pushed
    else
      var r := CloseSeam(pushed, c, |em.turns|);
      GrowsTransitive(em, pushed, r);
      r
  }

  /** ensureTrace */
  function EnsureTrace(em: Em, c: Call): (r: Em)
    requires Valid(em) && c.chain != []
    ensures Valid(r) && Grows(em, r)
    ensures c.session in r.cur
    ensures r.tools == em.tools && r.agents == em.agents
  {
    hide Valid, Grows;
    if c.session in em.cur then GrowsReflexive(em); em
    else
      var started := OpenTrace(em, c, None);
      var r := MarkSynthetic(started, |em.turns|, ShadowOpener);
      GrowsTransitive(em, started, r);
      r
  }

  /** traceAt's scan: the last trace before the first one that starts after at. */
  function LiveTrace(em: Em, line: seq<nat>, s: Session, at: int, i: nat, live: nat): (t: nat)
    requires i <= |line|
    requires forall j | 0 <= j < |line| :: TurnOf(em.turns, line[j], s)
    requires TurnOf(em.turns, live, s)
    ensures TurnOf(em.turns, t, s)
    decreases |line| - i
  {
    assert i < |line| ==> TurnOf(em.turns, line[i], s);
    if i == |line| || em.turns[line[i]].startedAt > at then live
    else LiveTrace(em, line, s, at, i + 1, line[i])
  }

  /** traceAt, once the session is known to have a trace. */
  function TraceAt(em: Em, c: Call): (t: nat)
    requires Valid(em) && c.session in em.cur
    ensures TurnOf(em.turns, t, c.session)
  {
    CurrentTurn(em, c.session);
    var line := em.timeline[c.session];
    assert TurnOf(em.turns, line[0], c.session);
    LiveTrace(em, line, c.session, c.at, 1, line[0])
  }

  /** A session whose only trace was just synthesized for c gets that one. */
  lemma FreshTraceIsLive(em: Em, c: Call)
    requires Valid(em) && c.chain != [] && c.session !in em.cur
    ensures var r := EnsureTrace(em, c); c.session in r.cur && TraceAt(r, c) == r.cur[c.session]
  {
    var pushed := PushTurn(em, TurnOpenedBy(c, None));
    hide Grows;
    assert c.session !in em.seam && c.session !in em.timeline;
    assert OpenTrace(em, c, None) == pushed && pushed.timeline[c.session] == [|em.turns|];
    assert EnsureTrace(em, c).timeline[c.session] == [|em.turns|];
  }

  // ---------------------------------------------------------------- composite steps

  /** One request node of emitConversation: an event span, or the results it carries. */
  function ScanResults(em: Em, s: Session, blocks: seq<ContentBlock>, at: int, j: nat,
                       feeds: seq<Key>): (r: (Em, seq<Key>))
    requires Valid(em) && j <= |blocks|
    requires forall k | k in feeds :: k in em.tools && k.session == s
    ensures Valid(r.0) && Grows(em, r.0)
    ensures forall k | k in r.1 :: k in r.0.tools && k.session == s
    ensures r.0.tools == em.tools && r.0.agents == em.agents && r.0.cur == em.cur && |r.0.turns| == |em.turns|
    decreases |blocks| - j
  {
    if j == |blocks| then (em, feeds)
    else if blocks[j].kind != ToolResult then ScanResults(em, s, blocks, at, j + 1, feeds)
    else
      var f := Fill(em, s, blocks[j], at);
      var r := ScanResults(f.0, s, blocks, at, j + 1, if f.1.Some? then feeds + [f.1.value] else feeds);
      GrowsTransitive(em, f.0, r.0);
      r
  }

  function ScanNode(em: Em, c: Call, t: nat, parent: SpanId, i: nat, feeds: seq<Key>): (r: (Em, seq<Key>))
    requires Valid(em) && c.Valid() && i < |c.chain| && t < |em.turns|
    requires forall k | k in feeds :: k in em.tools && k.session == c.session
    ensures Valid(r.0) && Grows(em, r.0)
    ensures forall k | k in r.1 :: k in r.0.tools && k.session == c.session
    ensures r.0.tools == em.tools && r.0.agents == em.agents && r.0.cur == em.cur && |r.0.turns| == |em.turns|
  {
    var n := c.chain[i];
    var role := n.bucket.role;
    if !c.isNew[i] then (em, feeds)
    else if n.kind.Injected? then
      (if i > Boundary(c) then AddSpan(em, t, EventSpanOf(c, parent, n.kind, n)) else em, feeds)
    else if role == System then
      (if i > Boundary(c) then AddSpan(em, t, EventSpanOf(c, parent, Injected("system-insert"), n)) else em, feeds)
    else if role != User && role != Tool then (em, feeds)
    else ScanResults(em, c.session, n.bucket.content, n.capturedAt, 0, feeds)
  }

  function ScanRequest(em: Em, c: Call, t: nat, parent: SpanId, i: nat, feeds: seq<Key>): (r: (Em, seq<Key>))
    requires Valid(em) && c.Valid() && i < |c.chain| && t < |em.turns|
    requires forall k | k in feeds :: k in em.tools && k.session == c.session
    ensures Valid(r.0) && Grows(em, r.0)
    ensures forall k | k in r.1 :: k in r.0.tools && k.session == c.session
    ensures r.0.tools == em.tools && r.0.agents == em.agents && r.0.cur == em.cur && |r.0.turns| == |em.turns|
    decreases |c.chain| - i
  {
    if i == |c.chain| - 1 then (em, feeds)
    else
      var n := ScanNode(em, c, t, parent, i, feeds);
      var r := ScanRequest(n.0, c, t, parent, i + 1, n.1);
      GrowsTransitive(em, n.0, r.0);
      r
  }

  function FeedLink(em: Em, k: Key, t: nat, span: SpanId): Link
    requires Valid(em) && k in em.tools && t < |em.turns|
  {
    Link(em.turns[em.tools[k].turn].traceId, ToolCall(k.id), em.turns[t].traceId, span, Feeds)
  }

  function LinkFeeds(em: Em, feeds: seq<Key>, t: nat, span: SpanId, i: nat): (r: Em)
    requires Valid(em) && t < |em.turns| && i <= |feeds|
    requires forall k | k in feeds :: k in em.tools
    ensures Valid(r) && Grows(em, r)
    ensures r.tools == em.tools && r.agents == em.agents && r.cur == em.cur && |r.turns| == |em.turns|
    decreases |feeds| - i
  {
    if i == |feeds| then em
    else
      var l := AddLink(em, t, FeedLink(em, feeds[i], t, span));
      var r := LinkFeeds(l, feeds, t, span, i + 1);
      GrowsTransitive(em, l, r);
      r
  }

  predicate Emission(b: ContentBlock) {
    (b.kind == ToolUse || b.kind == ServerToolUse) && b.toolUseId != ""
  }

  function EmittedBy(s: Session, b: ContentBlock): set<Key> {
    if Emission(b) then {Key(s, b.toolUseId)} else {}
  }

  /** One response block: the first emitter opens the tool span, later ones only link. */
  function EmitTool(em: Em, c: Call, t: nat, parent: SpanId, b: ContentBlock): (r: Em)
    requires Valid(em) && t < |em.turns| && em.turns[t].session == c.session && c.chain != []
    ensures Valid(r) && Grows(em, r)
    ensures r.agents == em.agents && r.cur == em.cur && |r.turns| == |em.turns|
  {
    hide Valid, Grows;
    var id := em.turns[t].traceId;
    var llm := LlmCall(Identity(c));
    var k := Key(c.session, b.toolUseId);
    if !Emission(b) then GrowsReflexive(em); em
    else if k in em.tools then
      ToolPlace(em, k);
      AddLink(em, t, Link(id, llm, em.turns[em.tools[k].turn].traceId, ToolCall(k.id), Emits))
    else
      var added := AddTool(em, t, ToolSpanOf(c, parent, b), k);
      var r := AddLink(added, t, Link(id, llm, id, ToolCall(k.id), Emits));
      GrowsTransitive(em, added, r);
      r
  }

  lemma EmitToolKeys(em: Em, c: Call, t: nat, parent: SpanId, b: ContentBlock)
    requires Valid(em) && t < |em.turns| && em.turns[t].session == c.session && c.chain != []
    ensures Gains(em.tools, EmitTool(em, c, t, parent, b).tools, EmittedBy(c.session, b))
  {
    hide Valid, Grows, TurnsGrow, AddLink, AddTool;
    var k := Key(c.session, b.toolUseId);
    var r := EmitTool(em, c, t, parent, b);
    if !Emission(b) {
      assert r == em;
    } else if k in em.tools {
      assert r.tools == em.tools;
    } else {
      assert r.tools == em.tools[k := Ref(t, |em.turns[t].spans|)];
    }
  }

  /** The tool ids a call's response emits, as session keys, from block j on. */
  function EmittedFrom(s: Session, blocks: seq<ContentBlock>, j: nat): set<Key>
    requires j <= |blocks|
    decreases |blocks| - j
  {
    if j == |blocks| then {}
    else EmittedBy(s, blocks[j]) + EmittedFrom(s, blocks, j + 1)
  }

  function Emitted(c: Call): set<Key>
    requires c.chain != []
  {
    EmittedFrom(c.session, c.Response().bucket.content, 0)
  }

  function EmitTools(em: Em, c: Call, t: nat, parent: SpanId, blocks: seq<ContentBlock>, j: nat): (r: Em)
    requires Valid(em) && t < |em.turns| && em.turns[t].session == c.session && c.chain != [] && j <= |blocks|
    ensures Valid(r) && Grows(em, r)
    ensures r.agents == em.agents && r.cur == em.cur && |r.turns| == |em.turns|
    decreases |blocks| - j
  {
    hide Valid, Grows, EmitTool, EmittedBy;
    if j == |blocks| then GrowsReflexive(em); em
    else
      var e := EmitTool(em, c, t, parent, blocks[j]);
      TurnStays(em, e, t);
      var r := EmitTools(e, c, t, parent, blocks, j + 1);
      GrowsTransitive(em, e, r);
      r
  }

  lemma {:induction false} EmitToolsKeys(em: Em, c: Call, t: nat, parent: SpanId, blocks: seq<ContentBlock>, j: nat)
    requires Valid(em) && t < |em.turns| && em.turns[t].session == c.session && c.chain != [] && j <= |blocks|
    ensures Gains(em.tools, EmitTools(em, c, t, parent, blocks, j).tools, EmittedFrom(c.session, blocks, j))
    decreases |blocks| - j
  {
    hide Valid, Grows, EmitTool, EmittedBy;
    if j < |blocks| {
      var e := EmitTool(em, c, t, parent, blocks[j]);
      TurnStays(em, e, t);
      EmitToolKeys(em, c, t, parent, blocks[j]);
      EmitToolsKeys(e, c, t, parent, blocks, j + 1);
    }
  }

  /** emitConversation */
  function EmitConversation(em: Em, c: Call, t: nat, parent: SpanId): (r: Em)
    requires Valid(em) && c.Valid() && c.chain != []
    requires t < |em.turns| && em.turns[t].session == c.session
    ensures Valid(r) && Grows(em, r)
    ensures r.agents == em.agents && r.cur == em.cur && |r.turns| == |em.turns|
  {
    hide Valid, Grows, ScanRequest, LlmSpanOf, AddSpan, LinkFeeds, EmitTools, FreshInput;
    var scan := ScanRequest(em, c, t, parent, 0, []);
    var withLlm := AddSpan(scan.0, t, LlmSpanOf(c, parent, FreshInput(c)));
    var fed := LinkFeeds(withLlm, scan.1, t, LlmCall(Identity(c)), 0);
    GrowsTransitive(em, scan.0, withLlm);
    GrowsTransitive(em, withLlm, fed);
    TurnStays(em, fed, t);
    var r := EmitTools(fed, c, t, parent, c.Response().bucket.content, 0);
    GrowsTransitive(em, fed, r);
    r
  }

  /** A call registers exactly the tool ids its response emits. */
  lemma EmitConversationKeys(em: Em, c: Call, t: nat, parent: SpanId)
    requires Valid(em) && c.Valid() && c.chain != []
    requires t < |em.turns| && em.turns[t].session == c.session
    ensures Gains(em.tools, EmitConversation(em, c, t, parent).tools, Emitted(c))
  {
    hide Valid, Grows, ScanRequest, LlmSpanOf, AddSpan, LinkFeeds, EmitTools, FreshInput;
    var scan := ScanRequest(em, c, t, parent, 0, []);
    var withLlm := AddSpan(scan.0, t, LlmSpanOf(c, parent, FreshInput(c)));
    var fed := LinkFeeds(withLlm, scan.1, t, LlmCall(Identity(c)), 0);
    GrowsTransitive(em, scan.0, withLlm);
    GrowsTransitive(em, withLlm, fed);
    TurnStays(em, fed, t);
    EmitToolsKeys(fed, c, t, parent, c.Response().bucket.content, 0);
  }

  function RootIdAt(em: Em, t: nat): SpanId
    requires Valid(em) && t < |em.turns|
  {
    em.turns[t].spans[0].fixed.id
  }

  /** mainCall */
  function MainCall(em: Em, c: Call): (r: Em)
    requires Valid(em) && c.Valid() && c.chain != []
    ensures Valid(r) && Grows(em, r)
    ensures r.agents == em.agents
  {
    hide Valid, Grows;
    var started :=
      if c.session !in em.cur || Prompt(c).Some? then OpenTrace(em, c, Prompt(c)) else (GrowsReflexive(em); em);
    CurrentTurn(started, c.session);
    var t := started.cur[c.session];
    var r := EmitConversation(started, c, t, RootIdAt(started, t));
    GrowsTransitive(em, started, r);
    r
  }

  /** An agent span under the tool that spawned its thread, with the rejoin edge. */
  function SpawnAgent(em: Em, c: Call, task: Key): (r: Em)
    requires Valid(em) && task in em.tools && task.session == c.session && ThreadKey(c) !in em.agents
    ensures Valid(r) && Grows(em, r)
    ensures r.agents.Keys == em.agents.Keys + {ThreadKey(c)} && r.tools == em.tools
  {
    hide Valid, Grows;
    ToolPlace(em, task);
    var t := em.tools[task].turn;
    var id := em.turns[t].traceId;
    var linked := AddLink(em, t, Link(id, SubAgent(c.thread), id, ToolCall(task.id), Rejoin));
    TurnStays(em, linked, t);
    var r := AddAgent(linked, t, AgentSpanOf(c, ToolCall(task.id)), ThreadKey(c));
    GrowsTransitive(em, linked, r);
    r
  }

  /** The visible degrade: no anchor tool, so the agent hangs off the trace root. */
  function RootedAgent(em: Em, c: Call): (r: Em)
    requires Valid(em) && c.chain != [] && ThreadKey(c) !in em.agents
    ensures Valid(r) && Grows(em, r)
    ensures r.agents.Keys == em.agents.Keys + {ThreadKey(c)} && r.tools == em.tools
  {
    hide Valid, Grows;
    var host := EnsureTrace(em, c);
    CurrentTurn(host, c.session);
    var t := host.cur[c.session];
    var r := AddAgent(host, t, AgentSpanOf(c, RootIdAt(host, t)), ThreadKey(c));
    GrowsTransitive(em, host, r);
    r
  }

  /** threadCall's first half: the thread's agent span exists, under its anchor tool when
      that is captured and under the root of the session's trace otherwise. */
  function EnsureAgent(em: Em, c: Call): (r: Em)
    requires Valid(em) && c.chain != []
    ensures Valid(r) && Grows(em, r)
    ensures r.agents.Keys == em.agents.Keys + {ThreadKey(c)} && r.tools == em.tools
  {
    hide Valid, Grows;
    if ThreadKey(c) in em.agents then GrowsReflexive(em); em
    else if Key(c.session, Anchor(c)) in em.tools then SpawnAgent(em, c, Key(c.session, Anchor(c)))
    else RootedAgent(em, c)
  }

  function StretchAgent(em: Em, c: Call): (r: Em)
    requires Valid(em) && ThreadKey(c) in em.agents
    ensures Valid(r) && Grows(em, r) && r.agents == em.agents && r.tools == em.tools
  {
    AgentPlace(em, ThreadKey(c));
    var agent := SpanAt(em, em.agents[ThreadKey(c)]);
    if c.at > agent.fixed.startedAt then
      SetSpan(em, em.agents[ThreadKey(c)], agent.(duration := c.at - agent.fixed.startedAt))
    else em
  }

  /** threadCall */
  function ThreadCall(em: Em, c: Call): (r: Em)
    requires Valid(em) && c.Valid() && c.chain != []
    ensures Valid(r) && Grows(em, r)
    ensures ThreadKey(c) in r.agents
  {
    hide Valid, Grows, EnsureAgent, EmitConversation, StretchAgent;
    var hosted := EnsureAgent(em, c);
    AgentPlace(hosted, ThreadKey(c));
    var spoken := EmitConversation(hosted, c, hosted.agents[ThreadKey(c)].turn, SubAgent(c.thread));
    var r := StretchAgent(spoken, c);
    GrowsTransitive(em, hosted, spoken);
    GrowsTransitive(em, spoken, r);
    r
  }

  lemma ThreadCallKeys(em: Em, c: Call)
    requires Valid(em) && c.Valid() && c.chain != []
    ensures Gains(em.agents, ThreadCall(em, c).agents, {ThreadKey(c)})
    ensures Gains(em.tools, ThreadCall(em, c).tools, Emitted(c))
  {
    hide Valid, Grows, EnsureAgent, EmitConversation, StretchAgent;
    var hosted := EnsureAgent(em, c);
    AgentPlace(hosted, ThreadKey(c));
    EmitConversationKeys(hosted, c, hosted.agents[ThreadKey(c)].turn, SubAgent(c.thread));
    assert forall k :: k in hosted.agents <==> k in hosted.agents.Keys;
  }

  /** compactionCall */
  function CompactionCall(em: Em, c: Call): (r: Em)
    requires Valid(em) && c.chain != []
    ensures Valid(r) && Grows(em, r) && r.tools == em.tools && r.agents == em.agents
  {
    hide Valid, Grows;
    var host := EnsureTrace(em, c);
    CurrentTurn(host, c.session);
    var t := host.cur[c.session];
    var added := AddSpan(host, t, LlmSpanOf(c, RootIdAt(host, t), []));
    TurnStays(host, added, t);
    GrowsTransitive(em, host, added);
    var r := ArmSeam(added, c.session, Ref(t, |host.turns[t].spans|));
    GrowsTransitive(em, added, r);
    r
  }

  /** shadowCall */
  function ShadowCall(em: Em, c: Call): (r: Em)
    requires Valid(em) && c.Valid() && c.chain != []
    ensures Valid(r) && Grows(em, r) && r.tools == em.tools && r.agents == em.agents
  {
    hide Valid, Grows;
    var key := Key(c.session, c.anchor);
    if key in em.tools then
      ToolPlace(em, key);
      var t := em.tools[key].turn;
      var id := em.turns[t].traceId;
      var added := AddSpan(em, t, LlmSpanOf(c, ToolCall(key.id), FreshInput(c)));
      var r := AddLink(added, t, Link(id, LlmCall(Identity(c)), id, ToolCall(key.id), Verdict));
      GrowsTransitive(em, added, r);
      r
    else
      var host := EnsureTrace(em, c);
      CurrentTurn(host, c.session);
      var t := TraceAt(host, c);
      var counted := CountOrphan(host);
      var r := AddSpan(counted, t, LlmSpanOf(c, RootIdAt(host, t), FreshInput(c)));
      GrowsTransitive(em, host, counted);
      GrowsTransitive(em, counted, r);
      r
  }

  // ---------------------------------------------------------------- the phases

  predicate IsThread(c: Call) { (c.kind == Main || c.kind == Compaction) && c.thread != "" }
  predicate IsSpine(c: Call) { (c.kind == Main || c.kind == Compaction) && c.thread == "" }
  predicate IsShadow(c: Call) { c.kind != Main && c.kind != Compaction }

  ghost predicate WellFormed(calls: seq<Call>) {
    forall c | c in calls :: c.Valid()
  }

  ghost predicate Emittable(calls: seq<Call>) {
    forall c | c in calls :: c.Valid() && c.chain != []
  }

  function Only(calls: seq<Call>, p: Call -> bool): (r: seq<Call>)
    ensures forall c | c in r :: c in calls && c.chain != [] && p(c)
  {
    if calls == [] then []
    else
      var head := Only(calls[..|calls| - 1], p);
      var c := calls[|calls| - 1];
      if c.chain != [] && p(c) then head + [c] else head
  }

  /** The spine phase over the first n calls. */
  function Spine(calls: seq<Call>, n: nat): (r: Em)
    requires n <= |calls| && WellFormed(calls)
    ensures Valid(r)
  {
    if n == 0 then EMPTY
    else
      var em := Spine(calls, n - 1);
      var c := calls[n - 1];
      if c.chain == [] || !IsSpine(c) then em
      else if c.kind == Main then MainCall(em, c)
      else CompactionCall(em, c)
  }

  predicate Ready(em: Em, c: Call) {
    ThreadKey(c) in em.agents || (Anchor(c) != "" && Key(c.session, Anchor(c)) in em.tools)
  }

  /** One pass over the pending list from position i; blocked collects what stays. */
  function Pass(em: Em, pending: seq<Call>, i: nat, blocked: seq<Call>): (r: (Em, seq<Call>))
    requires Valid(em) && i <= |pending| && Emittable(pending) && Emittable(blocked)
    ensures Valid(r.0) && Grows(em, r.0) && Emittable(r.1)
    ensures |r.1| <= |blocked| + |pending| - i
    ensures |r.1| == |blocked| + |pending| - i ==> r.0 == em && r.1 == blocked + pending[i..]
    decreases |pending| - i
  {
    if i == |pending| then
      assert blocked + pending[i..] == blocked;
      (em, blocked)
    else if Ready(em, pending[i]) then
      var e := ThreadCall(em, pending[i]);
      var r := Pass(e, pending, i + 1, blocked);
      GrowsTransitive(em, e, r.0);
      r
    else
      assert blocked + [pending[i]] + pending[i + 1..] == blocked + pending[i..];
      Pass(em, pending, i + 1, blocked + [pending[i]])
  }

  /** Passes until one makes no progress; the calls left over take the degrade path. */
  function Fixpoint(em: Em, pending: seq<Call>): (r: (Em, seq<Call>))
    requires Valid(em) && Emittable(pending)
    ensures Valid(r.0) && Grows(em, r.0) && Emittable(r.1)
    decreases |pending|
  {
    if pending == [] then (em, [])
    else
      var p := Pass(em, pending, 0, []);
      if |p.1| == |pending| then (em, pending)
      else
        var r := Fixpoint(p.0, p.1);
        GrowsTransitive(em, p.0, r.0);
        r
  }

  function Degrade(em: Em, pending: seq<Call>, i: nat): (r: Em)
    requires Valid(em) && Emittable(pending) && i <= |pending|
    ensures Valid(r) && Grows(em, r)
    decreases |pending| - i
  {
    if i == |pending| then em
    else
      var e := ThreadCall(em, pending[i]);
      var r := Degrade(e, pending, i + 1);
      GrowsTransitive(em, e, r);
      r
  }

  /** threadCalls */
  function ThreadPhase(em: Em, pending: seq<Call>): (r: Em)
    requires Valid(em) && Emittable(pending)
    ensures Valid(r) && Grows(em, r)
  {
    var f := Fixpoint(em, pending);
    var r := Degrade(f.0, f.1, 0);
    GrowsTransitive(em, f.0, r);
    r
  }

  function Shadows(em: Em, calls: seq<Call>, i: nat): (r: Em)
    requires Valid(em) && Emittable(calls) && i <= |calls|
    ensures Valid(r) && Grows(em, r)
    decreases |calls| - i
  {
    if i == |calls| then em
    else
      var e := ShadowCall(em, calls[i]);
      var r := Shadows(e, calls, i + 1);
      GrowsTransitive(em, e, r);
      r
  }

  /** EmitSpans up to finish: spine, then threads, then shadows. */
  function Walk(calls: seq<Call>): (r: Em)
    requires WellFormed(calls)
    ensures Valid(r)
  {
    var spine := Spine(calls, |calls|);
    var threaded := ThreadPhase(spine, Only(calls, IsThread));
    Shadows(threaded, Only(calls, IsShadow), 0)
  }
}
