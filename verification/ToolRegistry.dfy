/** The tool-use registry the attach passes draw from: every id once, in first-capture
    order, filed under the call that brought it first. */
module ToolRegistry {
  import opened Llm
  import opened DeriveModel
  import opened Chain
  import opened DeriverModel
  import opened Dedup

  /** A block that opens a tool call, as the candidate of call k that it stands for. */
  ghost predicate OpensTool(b: ContentBlock) {
    b.kind in {ToolUse, ServerToolUse} && b.toolUseId != ""
  }

  ghost function Sighting(render: Renderer, t: ChainTurn, k: nat, b: ContentBlock): ToolRef {
    ToolRef(b.toolUseId, b.toolName, t.thread, render(b.toolName, b.toolInput),
            b.toolName in {"WebFetch", "WebSearch", "web_search", "web_fetch"}, k, false)
  }

  /** The tool calls some blocks show, repeats included. */
  ghost function Seen(render: Renderer, t: ChainTurn, k: nat, blocks: seq<ContentBlock>, n: nat): seq<ToolRef>
    requires n <= |blocks|
  {
    if n == 0 then []
    else Seen(render, t, k, blocks, n - 1) + (if OpensTool(blocks[n - 1]) then [Sighting(render, t, k, blocks[n - 1])] else [])
  }

  ghost function ChainSeen(render: Renderer, t: ChainTurn, k: nat, n: nat): seq<ToolRef>
    requires n <= |t.chain|
  {
    if n == 0 then []
    else ChainSeen(render, t, k, n - 1) + Seen(render, t, k, t.chain[n - 1].bucket.content, |t.chain[n - 1].bucket.content|)
  }

  /** Calls are counted without those that have no chain. */
  ghost function Spoken(turns: seq<ChainTurn>): nat {
    if turns == [] then 0 else Spoken(turns[..|turns| - 1]) + (if turns[|turns| - 1].chain == [] then 0 else 1)
  }

  ghost function AllSeen(render: Renderer, turns: seq<ChainTurn>): seq<ToolRef> {
    if turns == [] then []
    else
      var rest, t := turns[..|turns| - 1], turns[|turns| - 1];
      AllSeen(render, rest) + ChainSeen(render, t, Spoken(rest), |t.chain|)
  }

  ghost predicate Sights(seen: seq<ToolRef>, id: string) {
    exists i :: 0 <= i < |seen| && seen[i].id == id
  }

  /** The first sighting of every id, in order. */
  ghost function Firsts(seen: seq<ToolRef>): seq<ToolRef> {
    if seen == [] then []
    else
      var head, u := seen[..|seen| - 1], seen[|seen| - 1];
      Firsts(head) + (if Sights(head, u.id) then [] else [u])
  }

  lemma FirstsSnoc(seen: seq<ToolRef>, u: ToolRef)
    ensures Firsts(seen + [u]) == Firsts(seen) + (if Sights(seen, u.id) then [] else [u])
  {
    assert (seen + [u])[..|seen|] == seen;
  }

  ghost predicate Registry(d: Derived, seen: seq<ToolRef>) {
    d.tools == Firsts(seen) && forall id :: id in d.toolSeen <==> Sights(seen, id)
  }

  /** Calls come in order, and every candidate belongs to a call already seen. */
  ghost predicate InOrder(tools: seq<ToolRef>, calls: nat) {
    && (forall i | 0 <= i < |tools| :: tools[i].atTurn < calls && !tools[i].consumed && tools[i].id != "")
    && (forall i, j | 0 <= i < j < |tools| :: tools[i].atTurn <= tools[j].atTurn)
  }

  lemma SightsSnoc(seen: seq<ToolRef>, u: ToolRef, id: string)
    ensures Sights(seen + [u], id) <==> Sights(seen, id) || id == u.id
  {
    if Sights(seen, id) {
      var i :| 0 <= i < |seen| && seen[i].id == id;
      assert (seen + [u])[i].id == id;
    }
    assert (seen + [u])[|seen|] == u;
  }

  lemma RegisterOne(e: Derived, seen: seq<ToolRef>, u: ToolRef)
    requires Registry(e, seen)
    ensures u.id in e.toolSeen ==> Registry(e, seen + [u])
    ensures u.id !in e.toolSeen ==> Registry(e.(toolSeen := e.toolSeen + {u.id}, tools := e.tools + [u]), seen + [u])
  {
    hide Firsts, Sights;
    FirstsSnoc(seen, u);
    forall id ensures Sights(seen + [u], id) <==> Sights(seen, id) || id == u.id { SightsSnoc(seen, u, id); }
  }

  lemma {:induction false} AddToolsRegisters(render: Renderer, d: Derived, t: ChainTurn, blocks: seq<ContentBlock>,
                                             n: nat, seen: seq<ToolRef>)
    requires n <= |blocks| && Registry(d, seen)
    ensures Registry(AddTools(render, d, t, blocks, n), seen + Seen(render, t, |d.sources|, blocks, n))
  {
    hide Registry;
    if n == 0 {
      assert seen + Seen(render, t, |d.sources|, blocks, 0) == seen;
    } else {
      AddToolsRegisters(render, d, t, blocks, n - 1, seen);
      var e, b := AddTools(render, d, t, blocks, n - 1), blocks[n - 1];
      var before := seen + Seen(render, t, |d.sources|, blocks, n - 1);
      if OpensTool(b) {
        assert seen + Seen(render, t, |d.sources|, blocks, n) == before + [Sighting(render, t, |d.sources|, b)];
        RegisterOne(e, before, RefOf(render, t, |d.sources|, b));
      } else {
        assert seen + Seen(render, t, |d.sources|, blocks, n) == before;
      }
    }
  }

  lemma {:induction false} AddToolsInOrder(render: Renderer, d: Derived, t: ChainTurn, blocks: seq<ContentBlock>,
                                           n: nat)
    requires n <= |blocks| && InOrder(d.tools, |d.sources| + 1)
    ensures InOrder(AddTools(render, d, t, blocks, n).tools, |d.sources| + 1)
  {
    if n > 0 { AddToolsInOrder(render, d, t, blocks, n - 1); }
  }

  lemma {:induction false} AddNodesRegister(render: Renderer, d: Derived, t: ChainTurn, n: nat, seen: seq<ToolRef>)
    requires n <= |t.chain| && Registry(d, seen) && InOrder(d.tools, |d.sources| + 1)
    ensures Registry(AddNodes(render, d, t, n), seen + ChainSeen(render, t, |d.sources|, n))
    ensures InOrder(AddNodes(render, d, t, n).tools, |d.sources| + 1)
  {
    hide AddTools, InOrder, Registry, Seen;
    if n == 0 {
      assert seen + ChainSeen(render, t, |d.sources|, 0) == seen;
    } else {
      AddNodesRegister(render, d, t, n - 1, seen);
      var e, node := AddNodes(render, d, t, n - 1), t.chain[n - 1];
      var kept, blocks := Retain(e, t, node), node.bucket.content;
      var before := seen + ChainSeen(render, t, |d.sources|, n - 1);
      RegistryReads(e, kept, before);
      AddToolsRegisters(render, kept, t, blocks, |blocks|, before);
      AddToolsInOrder(render, kept, t, blocks, |blocks|);
      assert seen + ChainSeen(render, t, |d.sources|, n) == before + Seen(render, t, |d.sources|, blocks, |blocks|);
    }
  }

  lemma RegistryReads(d: Derived, e: Derived, seen: seq<ToolRef>)
    requires Registry(d, seen) && e.tools == d.tools && e.toolSeen == d.toolSeen
    ensures Registry(e, seen)
  {
  }

  /** The registry lists each tool_use id of the capture once, in first-capture order, as its
      first sighting has it: under that call's thread and index, with its name and input. */
  lemma {:induction false} RegistersEachToolOnce(render: Renderer, turns: seq<ChainTurn>)
    ensures var d := Derive(render, turns);
            && Registry(d, AllSeen(render, turns)) && InOrder(d.tools, |d.sources|) && |d.sources| == Spoken(turns)
            && forall i, j | 0 <= i < j < |d.tools| :: d.tools[i].id != d.tools[j].id
  {
    hide AddNodes, NewFlags, ChainSeen, InOrder, Registry;
    if turns == [] {
      NothingRegistered(render);
    } else {
      var rest, t := turns[..|turns| - 1], turns[|turns| - 1];
      var d := Derive(render, rest);
      RegistersEachToolOnce(render, rest);
      if t.chain == [] {
        assert ChainSeen(render, t, Spoken(rest), 0) == [] by { NothingSeen(render, t, Spoken(rest)); }
        assert AllSeen(render, turns) == AllSeen(render, rest);
      } else {
        RegistryReads(d, Booked(d, t), AllSeen(render, rest));
        LaterCalls(d.tools, |d.sources|);
        AddNodesRegister(render, Booked(d, t), t, |t.chain|, AllSeen(render, rest));
        RegistryReads(AddNodes(render, Booked(d, t), t, |t.chain|), AddTurn(render, d, t), AllSeen(render, turns));
      }
    }
    FirstsAreApart(AllSeen(render, turns));
    TheFirsts(Derive(render, turns), AllSeen(render, turns));
  }

  lemma NothingSeen(render: Renderer, t: ChainTurn, k: nat)
    ensures ChainSeen(render, t, k, 0) == []
  {
  }

  lemma TheFirsts(d: Derived, seen: seq<ToolRef>)
    requires Registry(d, seen)
    ensures d.tools == Firsts(seen)
  {
  }

  lemma NothingRegistered(render: Renderer)
    ensures Registry(NOTHING, AllSeen(render, [])) && InOrder([], 0)
  {
  }

  lemma LaterCalls(tools: seq<ToolRef>, n: nat)
    requires InOrder(tools, n)
    ensures InOrder(tools, n + 1)
  {
  }

  lemma {:induction false} FirstsAreApart(seen: seq<ToolRef>)
    ensures forall i, j | 0 <= i < j < |Firsts(seen)| :: Firsts(seen)[i].id != Firsts(seen)[j].id
    ensures forall i | 0 <= i < |Firsts(seen)| :: Sights(seen, Firsts(seen)[i].id)
  {
    if seen != [] {
      var head, u := seen[..|seen| - 1], seen[|seen| - 1];
      FirstsAreApart(head);
      assert seen == head + [u];
      forall i | 0 <= i < |Firsts(seen)| ensures Sights(seen, Firsts(seen)[i].id) { SightsSnoc(head, u, Firsts(seen)[i].id); }
    }
  }

  /** Distinct is what its name says: the same elements, no repeats. */
  lemma {:induction false} DistinctHasNoRepeats<T>(s: seq<T>)
    ensures forall i, j | 0 <= i < j < |Distinct(s)| :: Distinct(s)[i] != Distinct(s)[j]
    ensures forall x :: x in Distinct(s) <==> x in s
  {
    if s != [] {
      DistinctHasNoRepeats(s[..|s| - 1]);
      assert s == s[..|s| - 1] + [s[|s| - 1]];
    }
  }
}
