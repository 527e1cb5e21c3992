/** The deriver as it runs: maps, lists and counters updated in place as calls stream in. */
module Deriver {
  import opened Llm
  import opened DeriveModel
  import opened Chain
  import opened DeriverModel

  lemma NothingFolded(render: Renderer, d: Derived, t: ChainTurn)
    ensures AddNodes(render, d, t, 0) == d && NewFlags(render, d, t, 0) == []
  {
  }

  lemma FoldStep(render: Renderer, d: Derived, t: ChainTurn, i: nat)
    requires i < |t.chain|
    ensures var before, n := AddNodes(render, d, t, i), t.chain[i];
            && AddNodes(render, d, t, i + 1) == AddTools(render, Retain(before, t, n), t, n.bucket.content, |n.bucket.content|)
            && NewFlags(render, d, t, i + 1) == NewFlags(render, d, t, i) + [n.hash !in before.byHash]
  {
    hide AddTools, Retain;
  }

  class StreamingDeriver {
    const render: Renderer
    var byHash: map<Hash, Kept>
    var nodes: seq<Hash>
    var sources: seq<Source>
    var toolSeen: set<string>
    var tools: seq<ToolRef>
    var callKinds: map<Kind, nat>
    var nodeKinds: map<Kind, nat>
    var sessions: seq<Session>
    var wireMain: map<Session, nat>

    ghost function State(): Derived
      reads this
    {
      Derived(byHash, nodes, sources, toolSeen, tools, callKinds, nodeKinds, sessions, wireMain)
    }

    constructor (r: Renderer)
      ensures render == r && State() == NOTHING
    {
      render := r;
      byHash, nodes, sources := map[], [], [];
      toolSeen, tools := {}, [];
      callKinds, nodeKinds := map[], map[];
      sessions, wireMain := [], map[];
    }

    /** The first capture of a hash is kept; later ones resolve to it. */
    method RetainNode(t: ChainTurn, n: ChainNode) returns (isNew: bool)
      modifies this`byHash, this`nodes, this`nodeKinds
      ensures State() == Retain(old(State()), t, n)
      ensures isNew <==> n.hash !in old(byHash)
    {
      isNew := n.hash !in byHash;
      if isNew {
        var capturedAt := t.at;
        if n.createdAt.Some? { capturedAt := n.createdAt.value; }
        byHash := byHash[n.hash := Kept(Node(n.hash, n.bucket, n.kind, n.thread, n.stopReason, n.usage, capturedAt, ""), t.session)];
        nodes := nodes + [n.hash];
        nodeKinds := nodeKinds[n.kind := Count(nodeKinds, n.kind) + 1];
      }
    }

    method RegisterTools(t: ChainTurn, blocks: seq<ContentBlock>)
      modifies this`toolSeen, this`tools
      ensures State() == AddTools(render, old(State()), t, blocks, |blocks|)
    {
      hide Registers;
      var i := 0;
      while i < |blocks|
        invariant 0 <= i <= |blocks|
        invariant State() == AddTools(render, old(State()), t, blocks, i)
      {
        var b := blocks[i];
        if Registers(b) && b.toolUseId !in toolSeen {
          toolSeen := toolSeen + {b.toolUseId};
          tools := tools + [RefOf(render, t, |sources|, b)];
        }
        i := i + 1;
      }
    }

    /** addChainTurn, before its node loop. */
    method Book(t: ChainTurn) returns (kind: Kind)
      requires t.chain != []
      modifies this`wireMain, this`callKinds, this`sessions
      ensures kind == KindOf(t) && State() == Booked(old(State()), t)
    {
      kind := t.chain[|t.chain| - 1].kind;
      if t.wire && kind == Main {
        wireMain := wireMain[t.session := Count(wireMain, t.session) + 1];
      }
      callKinds := callKinds[kind := Count(callKinds, kind) + 1];
      if t.session !in sessions && t.session.id != "" {
        sessions := sessions + [t.session];
      }
    }

    /** addChainTurn's node loop. */
    method FoldChain(t: ChainTurn) returns (chain: seq<Hash>, flags: seq<bool>)
      modifies this
      ensures State() == AddNodes(render, old(State()), t, |t.chain|)
      ensures chain == Hashes(t.chain) && flags == NewFlags(render, old(State()), t, |t.chain|)
    {
      hide AddTools, Retain, AddNodes, NewFlags;
      NothingFolded(render, State(), t);
      chain, flags := [], [];
      var i := 0;
      while i < |t.chain|
        invariant 0 <= i <= |t.chain|
        invariant State() == AddNodes(render, old(State()), t, i)
        invariant chain == Hashes(t.chain[..i])
        invariant flags == NewFlags(render, old(State()), t, i)
      {
        var node := t.chain[i];
        FoldStep(render, old(State()), t, i);
        var isNew := RetainNode(t, node);
        RegisterTools(t, node.bucket.content);
        assert t.chain[..i + 1][..i] == t.chain[..i];
        chain := chain + [node.hash];
        flags := flags + [isNew];
        i := i + 1;
      }
      assert t.chain[..i] == t.chain;
    }

    /** addChainTurn */
    method AddChainTurn(t: ChainTurn)
      modifies this
      ensures State() == AddTurn(render, old(State()), t)
    {
      hide AddNodes, NewFlags, Booked, Hashes;
      if t.chain == [] { return; }
      var kind := Book(t);
      var chain, flags := FoldChain(t);
      sources := sources + [Source(t.rawTurn, t.requestId, t.at, kind, t.thread, t.session, t.wire, t.action,
                                   chain, flags, t.anchor)];
    }
  }

  /** A whole pass over the captured calls. */
  method DeriveAll(render: Renderer, turns: seq<ChainTurn>) returns (dv: StreamingDeriver)
    ensures fresh(dv) && dv.State() == Derive(render, turns)
  {
    hide AddTurn;
    dv := new StreamingDeriver(render);
    var i := 0;
    while i < |turns|
      invariant 0 <= i <= |turns| && fresh(dv) && dv.render == render
      invariant dv.State() == Derive(render, turns[..i])
    {
      dv.AddChainTurn(turns[i]);
      assert turns[..i + 1][..i] == turns[..i];
      i := i + 1;
    }
    assert turns[..i] == turns;
  }
}
