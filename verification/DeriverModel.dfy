/** The streaming deriver on values: what one call adds to the retained nodes, the tool
    registry, the counters and the span sources. */
module DeriverModel {
  import opened Llm
  import opened DeriveModel
  import opened Chain

  /** chainTurn: one parsed call on its way into the set. action is the judged action of a
      permission check, empty otherwise. */
  datatype ChainTurn = ChainTurn(
    chain: seq<ChainNode>,
    session: Session,
    rawTurn: nat,
    requestId: string,
    at: int,
    thread: string,
    wire: bool,
    anchor: string,
    action: string)

  /** A retained node and the session that captured it first. */
  datatype Kept = Kept(node: Node, session: Session)

  /** A SpanSource together with its attachTurn. chain names retained nodes by hash, so a
      later stamp on a node shows in every call that shares it. */
  datatype Source = Source(
    rawTurn: nat,
    requestId: string,
    at: int,
    kind: Kind,
    thread: string,
    session: Session,
    wire: bool,
    action: string,
    chain: seq<Hash>,
    isNew: seq<bool>,
    anchor: string)

  datatype ToolRef = ToolRef(
    id: string,
    name: string,
    thread: string,
    rendered: string,
    web: bool,
    atTurn: nat,
    consumed: bool)

  datatype Derived = Derived(
    byHash: map<Hash, Kept>,
    nodes: seq<Hash>,
    sources: seq<Source>,
    toolSeen: set<string>,
    tools: seq<ToolRef>,
    callKinds: map<Kind, nat>,
    nodeKinds: map<Kind, nat>,
    sessions: seq<Session>,
    wireMain: map<Session, nat>)

  const NOTHING := Derived(map[], [], [], {}, [], map[], map[], [], map[])

  type Renderer = (string, ToolInput) -> string

  function Count<K>(m: map<K, nat>, k: K): nat {
    if k in m then m[k] else 0
  }

  function Keep(t: ChainTurn, n: ChainNode): Kept {
    Kept(Node(n.hash, n.bucket, n.kind, n.thread, n.stopReason, n.usage,
              if n.createdAt.Some? then n.createdAt.value else t.at, ""), t.session)
  }

  predicate WebTool(name: string) {
    name == "WebFetch" || name == "WebSearch" || name == "web_search" || name == "web_fetch"
  }

  predicate Registers(b: ContentBlock) {
    (b.kind == ToolUse || b.kind == ServerToolUse) && b.toolUseId != ""
  }

  function RefOf(render: Renderer, t: ChainTurn, index: nat, b: ContentBlock): ToolRef {
    ToolRef(b.toolUseId, b.toolName, t.thread, render(b.toolName, b.toolInput), WebTool(b.toolName), index, false)
  }

  /** The registry after the first n blocks: the earliest capture of an id wins. */
  function AddTools(render: Renderer, d: Derived, t: ChainTurn, blocks: seq<ContentBlock>, n: nat): (r: Derived)
    requires n <= |blocks|
    ensures r == d.(toolSeen := r.toolSeen, tools := r.tools)
  {
    if n == 0 then d
    else
      var e := AddTools(render, d, t, blocks, n - 1);
      var b := blocks[n - 1];
      if !Registers(b) || b.toolUseId in e.toolSeen then e
      else e.(toolSeen := e.toolSeen + {b.toolUseId}, tools := e.tools + [RefOf(render, t, |d.sources|, b)])
  }

  function Retain(d: Derived, t: ChainTurn, n: ChainNode): Derived {
    if n.hash in d.byHash then d
    else
      d.(byHash := d.byHash[n.hash := Keep(t, n)], nodes := d.nodes + [n.hash],
         nodeKinds := d.nodeKinds[n.kind := Count(d.nodeKinds, n.kind) + 1])
  }

  function AddNode(render: Renderer, d: Derived, t: ChainTurn, n: ChainNode): (r: Derived)
    ensures r.sources == d.sources
  {
    AddTools(render, Retain(d, t, n), t, n.bucket.content, |n.bucket.content|)
  }

  function AddNodes(render: Renderer, d: Derived, t: ChainTurn, n: nat): (r: Derived)
    requires n <= |t.chain|
    ensures r.sources == d.sources
  {
    if n == 0 then d else AddNode(render, AddNodes(render, d, t, n - 1), t, t.chain[n - 1])
  }

  /** New marks the positions this call captured first. */
  function NewFlags(render: Renderer, d: Derived, t: ChainTurn, n: nat): (flags: seq<bool>)
    requires n <= |t.chain|
    ensures |flags| == n
  {
    if n == 0 then []
    else NewFlags(render, d, t, n - 1) + [t.chain[n - 1].hash !in AddNodes(render, d, t, n - 1).byHash]
  }

  function Hashes(chain: seq<ChainNode>): (r: seq<Hash>)
    ensures |r| == |chain| && forall i | 0 <= i < |chain| :: r[i] == chain[i].hash
  {
    if chain == [] then [] else Hashes(chain[..|chain| - 1]) + [chain[|chain| - 1].hash]
  }

  function KindOf(t: ChainTurn): Kind
    requires t.chain != []
  {
    t.chain[|t.chain| - 1].kind
  }

  /** What is booked before the nodes: the call kind, the wire conversation, the session. */
  function Booked(d: Derived, t: ChainTurn): Derived
    requires t.chain != []
  {
    var kind := KindOf(t);
    d.(callKinds := d.callKinds[kind := Count(d.callKinds, kind) + 1],
       wireMain := if t.wire && kind == Main then d.wireMain[t.session := Count(d.wireMain, t.session) + 1] else d.wireMain,
       sessions := if t.session in d.sessions || t.session.id == "" then d.sessions else d.sessions + [t.session])
  }

  /** addChainTurn */
  function AddTurn(render: Renderer, d: Derived, t: ChainTurn): Derived {
    if t.chain == [] then d
    else
      var booked := Booked(d, t);
      var r := AddNodes(render, booked, t, |t.chain|);
      r.(sources := d.sources + [Source(t.rawTurn, t.requestId, t.at, KindOf(t), t.thread, t.session, t.wire, t.action,
                                        Hashes(t.chain), NewFlags(render, booked, t, |t.chain|), t.anchor)])
  }

  function Derive(render: Renderer, turns: seq<ChainTurn>): Derived {
    if turns == [] then NOTHING else AddTurn(render, Derive(render, turns[..|turns| - 1]), turns[|turns| - 1])
  }

  // ---------------------------------------------------------------- reading the set back

  predicate Resolved(d: Derived, s: Source) {
    |s.isNew| == |s.chain| && forall h | h in s.chain :: h in d.byHash
  }

  function NodesOf(byHash: map<Hash, Kept>, hs: seq<Hash>): (r: seq<Node>)
    requires forall h | h in hs :: h in byHash
    ensures |r| == |hs| && forall i | 0 <= i < |hs| :: r[i] == byHash[hs[i]].node
  {
    if hs == [] then [] else NodesOf(byHash, hs[..|hs| - 1]) + [byHash[hs[|hs| - 1]].node]
  }

  /** A source as the span emitter reads it: its chain through the retained nodes. */
  function CallOf(d: Derived, s: Source): Call
    requires Resolved(d, s)
  {
    Call(s.rawTurn, s.requestId, s.at, s.kind, s.thread, s.session, NodesOf(d.byHash, s.chain), s.isNew, s.anchor)
  }

  ghost predicate AllResolved(d: Derived) {
    forall s | s in d.sources :: Resolved(d, s)
  }

  ghost function CallsOf(d: Derived, n: nat): (r: seq<Call>)
    requires n <= |d.sources| && forall k | 0 <= k < n :: Resolved(d, d.sources[k])
    ensures |r| == n && forall k | 0 <= k < n :: r[k] == CallOf(d, d.sources[k])
  {
    if n == 0 then [] else CallsOf(d, n - 1) + [CallOf(d, d.sources[n - 1])]
  }
}
