/** The shape of the emitter's output, kept by every primitive step: rooted trees, names
    that identify, links whose ends exist, and one feeds edge per delivered tool result. */
module SpanSoundness {
  import opened Llm
  import opened DeriveModel
  import opened SpanModel

  datatype End = End(trace: TraceId, span: SpanId)

  /** The names the walk has used up so far: call ids that opened traces, call ids that
      have their llm span, and hashes that were new. */
  datatype Used = Used(traces: set<CallId>, spoken: set<CallId>, seen: set<Hash>)

  /** The state of the walk between primitive steps: the names used, the one link end
      still to be emitted, and the tool results whose feeds link is still to be added. */
  datatype Ctx = Ctx(used: Used, pend: Option<End>, owed: multiset<Key>)

  // ---------------------------------------------------------------- trees

  ghost predicate HasId(spans: seq<Span>, n: nat, id: SpanId) {
    exists i :: 0 <= i < n && i < |spans| && spans[i].fixed.id == id
  }

  /** One root, at index 0; every other span's parent was created before it, here. */
  ghost predicate Rooted(turn: Turn) {
    && turn.spans != []
    && turn.spans[0].fixed.parent == None
    && turn.spans[0].fixed.kind == AgentSpan
    && turn.spans[0].fixed.id == RootAgent(turn.traceId.opener)
    && forall i | 0 < i < |turn.spans| :: ParentBefore(turn.spans, i)
  }

  ghost predicate ParentBefore(spans: seq<Span>, i: nat)
    requires i < |spans|
  {
    spans[i].fixed.parent.Some? && HasId(spans, i, spans[i].fixed.parent.value)
  }

  ghost predicate Trees(turns: seq<Turn>) {
    forall t | 0 <= t < |turns| :: Rooted(turns[t])
  }

  // ---------------------------------------------------------------- names

  ghost predicate NamedSpan(em: Em, t: nat, i: nat, f: Fixed, s: Session, used: Used) {
    match f.id
    case RootAgent(_) => f.kind == AgentSpan && i == 0
    case SubAgent(th) => f.kind == AgentSpan && Key(s, th) in em.agents && em.agents[Key(s, th)] == Ref(t, i)
    case LlmCall(x) => f.kind == LlmSpan && x in used.spoken
    case ToolCall(x) => f.kind == ToolSpan && Key(s, x) in em.tools && em.tools[Key(s, x)] == Ref(t, i)
    case EventOf(h) => f.kind == EventSpan && h in used.seen
  }

  ghost predicate NamedTurn(em: Em, t: nat, turn: Turn, used: Used) {
    && turn.traceId.opener in used.traces
    && forall i | 0 <= i < |turn.spans| :: NamedSpan(em, t, i, turn.spans[i].fixed, turn.session, used)
  }

  ghost predicate UniqueIds(spans: seq<Span>) {
    forall i, j | 0 <= i < j < |spans| :: spans[i].fixed.id != spans[j].fixed.id
  }

  ghost predicate DistinctTraces(turns: seq<Turn>) {
    forall t, u | 0 <= t < u < |turns| :: turns[t].traceId != turns[u].traceId
  }

  ghost predicate Names(em: Em, used: Used) {
    && DistinctTraces(em.turns)
    && (forall t | 0 <= t < |em.turns| :: NamedTurn(em, t, em.turns[t], used) && UniqueIds(em.turns[t].spans))
  }

  // ---------------------------------------------------------------- links

  ghost predicate EndIn(turn: Turn, e: End) {
    turn.traceId == e.trace && HasId(turn.spans, |turn.spans|, e.span)
  }

  ghost predicate EndExists(turns: seq<Turn>, e: End) {
    exists t :: 0 <= t < |turns| && EndIn(turns[t], e)
  }

  ghost predicate EndKnown(turns: seq<Turn>, e: End, pend: Option<End>) {
    EndExists(turns, e) || pend == Some(e)
  }

  ghost predicate LinkOk(turns: seq<Turn>, l: Link, pend: Option<End>) {
    EndKnown(turns, End(l.fromTrace, l.fromSpan), pend) && EndKnown(turns, End(l.toTrace, l.toSpan), pend)
  }

  /** Links kept on a trace stay inside it, links kept on the set cross traces. */
  ghost predicate Linked(em: Em, pend: Option<End>) {
    && (forall t, i | 0 <= t < |em.turns| && 0 <= i < |em.turns[t].links| ::
          && em.turns[t].links[i].fromTrace == em.turns[t].links[i].toTrace == em.turns[t].traceId
          && LinkOk(em.turns, em.turns[t].links[i], pend))
    && (forall i | 0 <= i < |em.cross| ::
          em.cross[i].fromTrace != em.cross[i].toTrace && LinkOk(em.turns, em.cross[i], pend))
  }

  // ---------------------------------------------------------------- feeds

  ghost function CountFeeds(links: seq<Link>, e: End): nat {
    if links == [] then 0
    else
      var l := links[|links| - 1];
      CountFeeds(links[..|links| - 1], e)
      + (if l.kind == Feeds && End(l.fromTrace, l.fromSpan) == e then 1 else 0)
  }

  ghost function TurnFeeds(turns: seq<Turn>, e: End): nat {
    if turns == [] then 0
    else TurnFeeds(turns[..|turns| - 1], e) + CountFeeds(turns[|turns| - 1].links, e)
  }

  ghost function ToolEnd(em: Em, k: Key): End
    requires Valid(em) && k in em.tools
  {
    End(em.turns[em.tools[k].turn].traceId, ToolCall(k.id))
  }

  /** All feeds links that leave one span. */
  ghost function FeedsFrom(em: Em, e: End): nat {
    CountFeeds(em.cross, e) + TurnFeeds(em.turns, e)
  }

  ghost predicate FedTool(em: Em, k: Key, owed: multiset<Key>)
    requires Valid(em) && k in em.tools
  {
    FeedsFrom(em, ToolEnd(em, k)) + owed[k] == (if SpanAt(em, em.tools[k]).output != [] then 1 else 0)
  }

  ghost predicate Fed(em: Em, owed: multiset<Key>)
    requires Valid(em)
  {
    && (forall k | k in owed :: k in em.tools)
    && (forall k | k in em.tools :: FedTool(em, k, owed))
  }

  // ---------------------------------------------------------------- counters

  ghost function CountSynthetic(turns: seq<Turn>): nat {
    if turns == [] then 0
    else CountSynthetic(turns[..|turns| - 1]) + (if turns[|turns| - 1].synthetic == Genuine then 0 else 1)
  }

  ghost predicate Sound(em: Em, ctx: Ctx) {
    match ctx
    case Ctx(used, pend, owed) =>
      Valid(em) && Trees(em.turns) && Names(em, used) && Linked(em, pend) && Fed(em, owed)
      && em.synthetic == CountSynthetic(em.turns)
  }

  // ---------------------------------------------------------------- monotone facts

  lemma GrowsTurns(a: Em, b: Em)
    requires Grows(a, b)
    ensures TurnsGrow(a.turns, b.turns)
  {
  }

  lemma EndStays(x: seq<Turn>, y: seq<Turn>, e: End)
    requires TurnsGrow(x, y) && EndExists(x, e)
    ensures EndExists(y, e)
  {
    var t :| 0 <= t < |x| && EndIn(x[t], e);
    assert TurnGrows(x[t], y[t]);
    var i :| 0 <= i < |x[t].spans| && x[t].spans[i].fixed.id == e.span;
    assert SpanGrows(x[t].spans[i], y[t].spans[i]);
    assert EndIn(y[t], e);
  }

  lemma LinkStays(x: seq<Turn>, y: seq<Turn>, l: Link, pend: Option<End>)
    requires TurnsGrow(x, y) && LinkOk(x, l, pend)
    ensures LinkOk(y, l, pend)
  {
    hide TurnsGrow, EndExists;
    if EndExists(x, End(l.fromTrace, l.fromSpan)) { EndStays(x, y, End(l.fromTrace, l.fromSpan)); }
    if EndExists(x, End(l.toTrace, l.toSpan)) { EndStays(x, y, End(l.toTrace, l.toSpan)); }
  }

  /** Same links over grown turns. */
  lemma LinkedStays(a: Em, b: Em, pend: Option<End>)
    requires TurnsGrow(a.turns, b.turns) && |b.turns| == |a.turns| && b.cross == a.cross && Linked(a, pend)
    requires forall t | 0 <= t < |a.turns| :: b.turns[t].links == a.turns[t].links
    ensures Linked(b, pend)
  {
    hide LinkOk;
    forall t, i | 0 <= t < |b.turns| && 0 <= i < |b.turns[t].links|
      ensures b.turns[t].links[i].fromTrace == b.turns[t].links[i].toTrace == b.turns[t].traceId
              && LinkOk(b.turns, b.turns[t].links[i], pend)
    {
      assert TurnGrows(a.turns[t], b.turns[t]);
      LinkStays(a.turns, b.turns, a.turns[t].links[i], pend);
    }
    forall i | 0 <= i < |b.cross| ensures LinkOk(b.turns, b.cross[i], pend) {
      LinkStays(a.turns, b.turns, a.cross[i], pend);
    }
  }

  lemma {:induction false} TurnFeedsSame(x: seq<Turn>, y: seq<Turn>, e: End)
    requires |x| == |y| && forall t | 0 <= t < |x| :: x[t].links == y[t].links
    ensures TurnFeeds(x, e) == TurnFeeds(y, e)
  {
    if x != [] { TurnFeedsSame(x[..|x| - 1], y[..|y| - 1], e); }
  }

  lemma {:induction false} SyntheticSame(x: seq<Turn>, y: seq<Turn>)
    requires |x| == |y| && forall t | 0 <= t < |x| :: x[t].synthetic == y[t].synthetic
    ensures CountSynthetic(x) == CountSynthetic(y)
  {
    if x != [] { SyntheticSame(x[..|x| - 1], y[..|y| - 1]); }
  }

  lemma TurnKept(x: seq<Turn>, y: seq<Turn>, t: nat)
    requires TurnsGrow(x, y) && t < |x|
    ensures t < |y| && TurnGrows(x[t], y[t])
  {
  }

  /** Feeds are untouched by any step that keeps links, registry and tool outputs. */
  lemma FedStays(a: Em, b: Em, owed: multiset<Key>)
    requires Valid(a) && Valid(b) && Fed(a, owed) && TurnsGrow(a.turns, b.turns)
    requires |b.turns| == |a.turns| && b.cross == a.cross && b.tools == a.tools
    requires forall t | 0 <= t < |a.turns| :: b.turns[t].links == a.turns[t].links
    requires forall k | k in a.tools && Points(a.turns, a.tools[k], k.session, ToolSpan, ToolCall(k.id)) ::
               SpanAt(b, a.tools[k]).output == SpanAt(a, a.tools[k]).output
    ensures Fed(b, owed)
  {
    hide Valid, TurnFeeds, CountFeeds, TurnsGrow;
    forall k | k in b.tools ensures FedTool(b, k, owed) {
      ToolPlace(a, k);
      ToolPlace(b, k);
      assert FedTool(a, k, owed);
      TurnKept(a.turns, b.turns, a.tools[k].turn);
      assert TurnGrows(a.turns[a.tools[k].turn], b.turns[a.tools[k].turn]);
      TurnFeedsSame(a.turns, b.turns, ToolEnd(a, k));
    }
  }

  // ---------------------------------------------------------------- AddSpan

  lemma RootedPlus(turn: Turn, sp: Span)
    requires Rooted(turn) && sp.fixed.parent.Some? && HasId(turn.spans, |turn.spans|, sp.fixed.parent.value)
    ensures forall e: int :: Rooted(turn.(spans := turn.spans + [sp], endedAt := e))
  {
    var spans := turn.spans + [sp];
    forall i | 0 < i < |spans| ensures ParentBefore(spans, i) {
      if i < |turn.spans| {
        assert ParentBefore(turn.spans, i);
        var j :| 0 <= j < i && turn.spans[j].fixed.id == turn.spans[i].fixed.parent.value;
        assert spans[j].fixed.id == spans[i].fixed.parent.value;
      } else {
        var j :| 0 <= j < |turn.spans| && turn.spans[j].fixed.id == sp.fixed.parent.value;
        assert spans[j].fixed.id == sp.fixed.parent.value;
      }
    }
  }

  /** The id of a new llm or event span, or of an unregistered tool or thread, is new. */
  ghost predicate NewName(em: Em, used: Used, s: Session, f: Fixed) {
    match f.id
    case RootAgent(_) => false
    case SubAgent(th) => f.kind == AgentSpan && Key(s, th) !in em.agents
    case LlmCall(x) => f.kind == LlmSpan && x !in used.spoken
    case ToolCall(x) => f.kind == ToolSpan && Key(s, x) !in em.tools
    case EventOf(h) => f.kind == EventSpan && h !in used.seen
  }

  /** The context once a span named f has been added. */
  ghost function Named(used: Used, f: Fixed): Used {
    match f.id
    case LlmCall(x) => used.(spoken := used.spoken + {x})
    case EventOf(h) => used.(seen := used.seen + {h})
    case _ => used
  }

  lemma NewNameIsUnused(em: Em, used: Used, t: nat, f: Fixed)
    requires Names(em, used) && t < |em.turns| && NewName(em, used, em.turns[t].session, f)
    ensures forall i | 0 <= i < |em.turns[t].spans| :: em.turns[t].spans[i].fixed.id != f.id
  {
    forall i | 0 <= i < |em.turns[t].spans| ensures em.turns[t].spans[i].fixed.id != f.id {
      assert NamedSpan(em, t, i, em.turns[t].spans[i].fixed, em.turns[t].session, used);
    }
  }

  /** Names survive adding sp to turn t, whether or not it is registered on the way. */
  lemma NamesPlus(a: Em, b: Em, used: Used, t: nat, sp: Span)
    requires Names(a, used) && t < |a.turns| && NewName(a, used, a.turns[t].session, sp.fixed)
    requires |b.turns| == |a.turns|
    requires forall u | 0 <= u < |a.turns| && u != t :: b.turns[u] == a.turns[u]
    requires b.turns[t].spans == a.turns[t].spans + [sp]
    requires b.turns[t].traceId == a.turns[t].traceId && b.turns[t].session == a.turns[t].session
    requires forall k | k in a.tools :: k in b.tools && b.tools[k] == a.tools[k]
    requires forall k | k in a.agents :: k in b.agents && b.agents[k] == a.agents[k]
    requires NamedSpan(b, t, |a.turns[t].spans|, sp.fixed, a.turns[t].session, Named(used, sp.fixed))
    ensures Names(b, Named(used, sp.fixed))
  {
    NewNameIsUnused(a, used, t, sp.fixed);
    forall u | 0 <= u < |b.turns|
      ensures NamedTurn(b, u, b.turns[u], Named(used, sp.fixed)) && UniqueIds(b.turns[u].spans)
    {
      assert NamedTurn(a, u, a.turns[u], used);
      forall i | 0 <= i < |b.turns[u].spans|
        ensures NamedSpan(b, u, i, b.turns[u].spans[i].fixed, b.turns[u].session, Named(used, sp.fixed))
      {
        if u != t || i < |a.turns[t].spans| {
          assert NamedSpan(a, u, i, a.turns[u].spans[i].fixed, a.turns[u].session, used);
        }
      }
    }
  }

  /** The context once a span named f has been added to turn t: it may be the link end
      that was still to come. */
  ghost function Settled(em: Em, t: nat, ctx: Ctx, f: Fixed): Ctx
    requires t < |em.turns|
  {
    Ctx(Named(ctx.used, f), if ctx.pend == Some(End(em.turns[t].traceId, f.id)) then None else ctx.pend, ctx.owed)
  }

  lemma PendSettled(em: Em, pend: End)
    requires Linked(em, Some(pend)) && EndExists(em.turns, pend)
    ensures Linked(em, None)
  {
  }

  lemma AddSpanSound(em: Em, t: nat, sp: Span, ctx: Ctx)
    requires Sound(em, ctx) && t < |em.turns|
    requires sp.fixed.parent.Some? && HasId(em.turns[t].spans, |em.turns[t].spans|, sp.fixed.parent.value)
    requires sp.fixed.id.LlmCall? || sp.fixed.id.EventOf?
    requires NewName(em, ctx.used, em.turns[t].session, sp.fixed)
    ensures Sound(AddSpan(em, t, sp), Settled(em, t, ctx, sp.fixed))
  {
    hide Valid, Grows, Linked, Fed, NamedTurn, Rooted;
    var b := AddSpan(em, t, sp);
    var turn := em.turns[t];
    RootedPlus(turn, sp);
    TurnReplaced(em, t, b.turns[t]);
    NamesPlus(em, b, ctx.used, t, sp);
    LinkedStays(em, b, ctx.pend);
    FedStays(em, b, ctx.owed);
    SyntheticSame(em.turns, b.turns);
    if ctx.pend == Some(End(turn.traceId, sp.fixed.id)) {
      assert b.turns[t].spans[|turn.spans|].fixed.id == sp.fixed.id;
      assert EndIn(b.turns[t], ctx.pend.value);
      PendSettled(b, ctx.pend.value);
    }
  }

  // ---------------------------------------------------------------- AddLink

  lemma {:induction false} TurnFeedsReplaced(turns: seq<Turn>, t: nat, turn: Turn, e: End)
    requires t < |turns|
    ensures TurnFeeds(turns[t := turn], e) == TurnFeeds(turns, e) + CountFeeds(turn.links, e) - CountFeeds(turns[t].links, e)
  {
    var n := |turns| - 1;
    if t == n {
      assert turns[t := turn][..n] == turns[..n];
    } else {
      assert turns[t := turn][..n] == turns[..n][t := turn];
      TurnFeedsReplaced(turns[..n], t, turn, e);
    }
  }

  lemma FeedsPlus(em: Em, host: nat, l: Link, e: End)
    requires Valid(em) && host < |em.turns|
    ensures FeedsFrom(AddLink(em, host, l), e)
         == FeedsFrom(em, e) + (if l.kind == Feeds && End(l.fromTrace, l.fromSpan) == e then 1 else 0)
  {
    hide Valid, Grows, TurnsGrow, TurnFeeds;
    var links := em.turns[host].links + [l];
    assert links[..|links| - 1] == em.turns[host].links;
    assert (em.cross + [l])[..|em.cross|] == em.cross;
    TurnFeedsReplaced(em.turns, host, em.turns[host].(links := links), e);
  }

  /** Both ends exist or are about to, and a link inside one trace is filed on it. */
  ghost predicate GoodLink(em: Em, host: nat, l: Link, pend: Option<End>)
    requires host < |em.turns|
  {
    LinkOk(em.turns, l, pend) && (l.fromTrace == l.toTrace ==> l.toTrace == em.turns[host].traceId)
  }

  lemma AddLinkLinked(em: Em, host: nat, l: Link, pend: Option<End>)
    requires Valid(em) && host < |em.turns| && Linked(em, pend) && GoodLink(em, host, l, pend)
    ensures Linked(AddLink(em, host, l), pend)
  {
    hide Valid, LinkOk;
    var b := AddLink(em, host, l);
    forall t, i | 0 <= t < |b.turns| && 0 <= i < |b.turns[t].links|
      ensures b.turns[t].links[i].fromTrace == b.turns[t].links[i].toTrace == b.turns[t].traceId
              && LinkOk(b.turns, b.turns[t].links[i], pend)
    {
      LinkStays(em.turns, b.turns, b.turns[t].links[i], pend);
    }
    forall i | 0 <= i < |b.cross|
      ensures b.cross[i].fromTrace != b.cross[i].toTrace && LinkOk(b.turns, b.cross[i], pend)
    {
      LinkStays(em.turns, b.turns, b.cross[i], pend);
    }
  }

  lemma AddLinkShape(em: Em, host: nat, l: Link, ctx: Ctx)
    requires Sound(em, ctx) && host < |em.turns| && GoodLink(em, host, l, ctx.pend)
    ensures var b := AddLink(em, host, l);
            && Valid(b) && Trees(b.turns) && Names(b, ctx.used) && Linked(b, ctx.pend)
            && b.synthetic == CountSynthetic(b.turns)
  {
    hide Valid, Grows, TurnsGrow, GoodLink, Linked, Fed, NamedTurn, UniqueIds, Rooted;
    var b := AddLink(em, host, l);
    AddLinkLinked(em, host, l, ctx.pend);
    SyntheticSame(em.turns, b.turns);
    forall t | 0 <= t < |b.turns|
      ensures NamedTurn(b, t, b.turns[t], ctx.used) && UniqueIds(b.turns[t].spans) && Rooted(b.turns[t])
    {
      assert NamedTurn(em, t, em.turns[t], ctx.used) && UniqueIds(em.turns[t].spans) && Rooted(em.turns[t]);
      SameFixedShape(em, b, t, ctx.used);
    }
  }

  lemma AddLinkTools(em: Em, host: nat, l: Link, k: Key)
    requires Valid(em) && host < |em.turns| && k in em.tools
    ensures var b := AddLink(em, host, l);
            b.tools == em.tools && ToolEnd(b, k) == ToolEnd(em, k)
            && Points(b.turns, b.tools[k], k.session, ToolSpan, ToolCall(k.id))
            && Points(em.turns, em.tools[k], k.session, ToolSpan, ToolCall(k.id))
            && SpanAt(b, b.tools[k]) == SpanAt(em, em.tools[k])
  {
    hide Valid, Grows, TurnsGrow;
    ToolPlace(em, k);
  }

  lemma AddLinkSound(em: Em, host: nat, l: Link, ctx: Ctx)
    requires Sound(em, ctx) && host < |em.turns| && GoodLink(em, host, l, ctx.pend) && l.kind != Feeds
    ensures Sound(AddLink(em, host, l), ctx)
  {
    hide Valid, Grows, GoodLink, Linked, Names, Trees, AddLink, FeedsFrom;
    AddLinkShape(em, host, l, ctx);
    var b := AddLink(em, host, l);
    forall k | k in b.tools ensures FedTool(b, k, ctx.owed) {
      assert FedTool(em, k, ctx.owed);
      AddLinkTools(em, host, l, k);
      FeedsPlus(em, host, l, ToolEnd(em, k));
    }
  }

  /** Two registered tools never share a link end. */
  lemma ToolEndsDiffer(em: Em, used: Used, k: Key, j: Key)
    requires Valid(em) && Names(em, used) && k in em.tools && j in em.tools && k != j
    ensures ToolEnd(em, k) != ToolEnd(em, j)
  {
    ToolPlace(em, k);
    ToolPlace(em, j);
    var t, u := em.tools[k].turn, em.tools[j].turn;
    if t < u { assert em.turns[t].traceId != em.turns[u].traceId; }
    if u < t { assert em.turns[u].traceId != em.turns[t].traceId; }
  }

  lemma AddFeedSound(em: Em, k: Key, t: nat, span: SpanId, ctx: Ctx)
    requires Sound(em, ctx) && t < |em.turns| && k in ctx.owed && k in em.tools
    requires EndExists(em.turns, End(em.turns[t].traceId, span))
    ensures Sound(AddLink(em, t, FeedLink(em, k, t, span)), ctx.(owed := ctx.owed - multiset{k}))
  {
    hide Valid, Grows, Linked, Names, Trees, AddLink, FeedsFrom;
    var l := FeedLink(em, k, t, span);
    ToolPlace(em, k);
    assert EndIn(em.turns[em.tools[k].turn], End(l.fromTrace, l.fromSpan)) by {
      assert em.turns[em.tools[k].turn].spans[em.tools[k].span].fixed.id == l.fromSpan;
    }
    AddLinkShape(em, t, l, ctx);
    var b := AddLink(em, t, l);
    forall j | j in b.tools ensures FedTool(b, j, ctx.owed - multiset{k}) {
      assert FedTool(em, j, ctx.owed);
      AddLinkTools(em, t, l, j);
      FeedsPlus(em, t, l, ToolEnd(em, j));
      if j != k { ToolEndsDiffer(em, ctx.used, k, j); }
    }
  }

  // ---------------------------------------------------------------- SetSpan

  lemma SetSpanShape(em: Em, r: Ref, sp: Span, ctx: Ctx)
    requires Sound(em, ctx)
    requires r.turn < |em.turns| && r.span < |em.turns[r.turn].spans|
    requires SpanGrows(SpanAt(em, r), sp)
    ensures var b := SetSpan(em, r, sp);
            && Valid(b) && Trees(b.turns) && Names(b, ctx.used) && Linked(b, ctx.pend)
            && b.synthetic == CountSynthetic(b.turns)
  {
    hide Valid, Grows, TurnsGrow, Linked, Fed, NamedTurn, UniqueIds, Rooted;
    var b := SetSpan(em, r, sp);
    GrowsTurns(em, b);
    LinkedStays(em, b, ctx.pend);
    SyntheticSame(em.turns, b.turns);
    forall t | 0 <= t < |b.turns|
      ensures NamedTurn(b, t, b.turns[t], ctx.used) && UniqueIds(b.turns[t].spans) && Rooted(b.turns[t])
    {
      assert NamedTurn(em, t, em.turns[t], ctx.used) && UniqueIds(em.turns[t].spans) && Rooted(em.turns[t]);
      SameFixedShape(em, b, t, ctx.used);
    }
  }

  lemma SameFixedShape(a: Em, b: Em, t: nat, used: Used)
    requires t < |a.turns| && t < |b.turns| && a.tools == b.tools && a.agents == b.agents
    requires NamedTurn(a, t, a.turns[t], used) && UniqueIds(a.turns[t].spans) && Rooted(a.turns[t])
    requires a.turns[t].traceId == b.turns[t].traceId && a.turns[t].session == b.turns[t].session
    requires |a.turns[t].spans| == |b.turns[t].spans|
    requires forall i | 0 <= i < |a.turns[t].spans| :: a.turns[t].spans[i].fixed == b.turns[t].spans[i].fixed
    ensures NamedTurn(b, t, b.turns[t], used) && UniqueIds(b.turns[t].spans) && Rooted(b.turns[t])
  {
    var x, y := a.turns[t].spans, b.turns[t].spans;
    forall i | 0 <= i < |y| ensures NamedSpan(b, t, i, y[i].fixed, b.turns[t].session, used) {
      assert NamedSpan(a, t, i, x[i].fixed, a.turns[t].session, used);
    }
    forall i | 0 < i < |y| ensures ParentBefore(y, i) {
      assert ParentBefore(x, i);
      var j :| 0 <= j < i && x[j].fixed.id == x[i].fixed.parent.value;
      assert y[j].fixed.id == y[i].fixed.parent.value;
    }
  }

  /** A delivered result owes one feeds link. */
  lemma FillSound(em: Em, s: Session, b: ContentBlock, at: int, ctx: Ctx)
    requires Sound(em, ctx)
    ensures var f := Fill(em, s, b, at);
            Sound(f.0, ctx.(owed := if f.1.Some? then ctx.owed + multiset{f.1.value} else ctx.owed))
  {
    hide Grows, Linked, Names, Trees, FeedsFrom;
    var f := Fill(em, s, b, at);
    if f.1.Some? {
      var k := f.1.value;
      ToolPlace(em, k);
      var ts := SpanAt(em, em.tools[k]);
      var d := at - ts.fixed.startedAt;
      var sp := ts.(output := [b], failed := ts.failed || b.isError, duration := if d > 0 then d else ts.duration);
      SetSpanShape(em, em.tools[k], sp, ctx);
      FilledFed(em, k, sp, ctx.owed);
    }
  }

  lemma FilledFed(em: Em, k: Key, sp: Span, owed: multiset<Key>)
    requires Valid(em) && Fed(em, owed) && k in em.tools
    requires SpanAt(em, em.tools[k]).output == [] && sp.output != [] && SpanGrows(SpanAt(em, em.tools[k]), sp)
    ensures Fed(SetSpan(em, em.tools[k], sp), owed + multiset{k})
  {
    hide Valid, Grows, TurnsGrow, CountFeeds, TurnFeeds;
    ToolPlace(em, k);
    var b := SetSpan(em, em.tools[k], sp);
    forall j | j in b.tools ensures FedTool(b, j, owed + multiset{k}) {
      assert FedTool(em, j, owed);
      ToolPlace(em, j);
      TurnFeedsSame(em.turns, b.turns, ToolEnd(em, j));
      if em.tools[j] == em.tools[k] { assert j == k; }
    }
  }

  lemma StretchSound(em: Em, c: Call, ctx: Ctx)
    requires Sound(em, ctx) && ThreadKey(c) in em.agents
    ensures Sound(StretchAgent(em, c), ctx)
  {
    hide Valid, Grows, Linked, Names, Trees, Fed, TurnsGrow;
    AgentPlace(em, ThreadKey(c));
    var r := em.agents[ThreadKey(c)];
    var agent := SpanAt(em, r);
    if c.at > agent.fixed.startedAt {
      var sp := agent.(duration := c.at - agent.fixed.startedAt);
      SetSpanShape(em, r, sp, ctx);
      GrowsTurns(em, SetSpan(em, r, sp));
      FedStays(em, SetSpan(em, r, sp), ctx.owed);
    }
  }

  // ---------------------------------------------------------------- AddTool, AddAgent

  lemma {:induction false} NoFeeds(links: seq<Link>, e: End)
    requires forall i | 0 <= i < |links| :: End(links[i].fromTrace, links[i].fromSpan) != e
    ensures CountFeeds(links, e) == 0
  {
    if links != [] { NoFeeds(links[..|links| - 1], e); }
  }

  lemma {:induction false} NoTurnFeeds(turns: seq<Turn>, e: End)
    requires forall t, i | 0 <= t < |turns| && 0 <= i < |turns[t].links| ::
               End(turns[t].links[i].fromTrace, turns[t].links[i].fromSpan) != e
    ensures TurnFeeds(turns, e) == 0
  {
    if turns != [] {
      NoTurnFeeds(turns[..|turns| - 1], e);
      NoFeeds(turns[|turns| - 1].links, e);
    }
  }

  /** No link leaves a span that does not exist yet. */
  lemma NoFeedsYet(em: Em, pend: Option<End>, e: End)
    requires Linked(em, pend) && !EndKnown(em.turns, e, pend)
    ensures FeedsFrom(em, e) == 0
  {
    hide EndExists;
    forall t, i | 0 <= t < |em.turns| && 0 <= i < |em.turns[t].links|
      ensures End(em.turns[t].links[i].fromTrace, em.turns[t].links[i].fromSpan) != e
    {
      assert LinkOk(em.turns, em.turns[t].links[i], pend);
    }
    forall i | 0 <= i < |em.cross| ensures End(em.cross[i].fromTrace, em.cross[i].fromSpan) != e {
      assert LinkOk(em.turns, em.cross[i], pend);
    }
    NoFeeds(em.cross, e);
    NoTurnFeeds(em.turns, e);
  }

  lemma EndIsNew(em: Em, used: Used, t: nat, f: Fixed)
    requires Names(em, used) && t < |em.turns| && NewName(em, used, em.turns[t].session, f)
    ensures !EndExists(em.turns, End(em.turns[t].traceId, f.id))
  {
    NewNameIsUnused(em, used, t, f);
  }

  lemma AddToolSound(em: Em, t: nat, sp: Span, k: Key, ctx: Ctx)
    requires Sound(em, ctx) && ctx.pend == None && TurnOf(em.turns, t, k.session) && k !in em.tools
    requires sp.fixed.kind == ToolSpan && sp.fixed.id == ToolCall(k.id) && sp.output == []
    requires sp.fixed.parent.Some? && HasId(em.turns[t].spans, |em.turns[t].spans|, sp.fixed.parent.value)
    ensures Sound(AddTool(em, t, sp, k), ctx)
  {
    hide Valid, Grows, Linked, Fed, NamedTurn, Rooted;
    var b := AddTool(em, t, sp, k);
    RootedPlus(em.turns[t], sp);
    TurnReplaced(em, t, b.turns[t]);
    NamesPlus(em, b, ctx.used, t, sp);
    LinkedStays(em, b, ctx.pend);
    SyntheticSame(em.turns, b.turns);
    AddToolFed(em, t, sp, k, ctx);
  }

  lemma AddToolFed(em: Em, t: nat, sp: Span, k: Key, ctx: Ctx)
    requires Sound(em, ctx) && ctx.pend == None && TurnOf(em.turns, t, k.session) && k !in em.tools
    requires sp.fixed.kind == ToolSpan && sp.fixed.id == ToolCall(k.id) && sp.output == []
    ensures Fed(AddTool(em, t, sp, k), ctx.owed)
  {
    hide Valid, Grows, TurnsGrow, Linked, Trees, Names, CountFeeds, TurnFeeds;
    var b := AddTool(em, t, sp, k);
    forall j | j in b.tools ensures FedTool(b, j, ctx.owed) {
      if j == k {
        EndIsNew(em, ctx.used, t, sp.fixed);
        NoFeedsYet(em, ctx.pend, End(em.turns[t].traceId, sp.fixed.id));
        TurnFeedsSame(em.turns, b.turns, ToolEnd(b, k));
      } else {
        ToolPlace(em, j);
        assert FedTool(em, j, ctx.owed);
        TurnFeedsSame(em.turns, b.turns, ToolEnd(em, j));
        assert SpanAt(b, b.tools[j]) == SpanAt(em, em.tools[j]);
      }
    }
  }

  lemma AddAgentSound(em: Em, t: nat, sp: Span, k: Key, ctx: Ctx)
    requires Sound(em, ctx) && TurnOf(em.turns, t, k.session) && k !in em.agents
    requires sp.fixed.kind == AgentSpan && sp.fixed.id == SubAgent(k.id)
    requires sp.fixed.parent.Some? && HasId(em.turns[t].spans, |em.turns[t].spans|, sp.fixed.parent.value)
    ensures Sound(AddAgent(em, t, sp, k), Settled(em, t, ctx, sp.fixed))
  {
    hide Valid, Grows, Linked, Fed, NamedTurn, Rooted;
    var b := AddAgent(em, t, sp, k);
    RootedPlus(em.turns[t], sp);
    TurnReplaced(em, t, b.turns[t]);
    NamesPlus(em, b, ctx.used, t, sp);
    LinkedStays(em, b, ctx.pend);
    FedStays(em, b, ctx.owed);
    SyntheticSame(em.turns, b.turns);
    if ctx.pend == Some(End(em.turns[t].traceId, sp.fixed.id)) {
      assert b.turns[t].spans[|em.turns[t].spans|].fixed.id == sp.fixed.id;
      assert EndIn(b.turns[t], ctx.pend.value);
      PendSettled(b, ctx.pend.value);
    }
  }

  // ---------------------------------------------------------------- traces and counters

  ghost predicate Within(a: Used, b: Used) {
    a.traces <= b.traces && a.spoken <= b.spoken && a.seen <= b.seen
  }

  lemma {:induction false} TurnFeedsPush(turns: seq<Turn>, turn: Turn, e: End)
    ensures TurnFeeds(turns + [turn], e) == TurnFeeds(turns, e) + CountFeeds(turn.links, e)
  {
    assert (turns + [turn])[..|turns|] == turns;
  }

  lemma OldTurnNamed(a: Em, b: Em, t: nat, used: Used, wide: Used)
    requires t < |a.turns| && t < |b.turns| && a.turns[t] == b.turns[t]
    requires a.tools == b.tools && a.agents == b.agents && Within(used, wide)
    requires NamedTurn(a, t, a.turns[t], used)
    ensures NamedTurn(b, t, b.turns[t], wide)
  {
    forall i | 0 <= i < |b.turns[t].spans|
      ensures NamedSpan(b, t, i, b.turns[t].spans[i].fixed, b.turns[t].session, wide)
    {
      assert NamedSpan(a, t, i, a.turns[t].spans[i].fixed, a.turns[t].session, used);
    }
  }

  lemma PushTurnNames(em: Em, c: Call, prompt: Option<Hash>, used: Used)
    requires Valid(em) && Names(em, used) && c.chain != [] && Identity(c) !in used.traces
    ensures Names(PushTurn(em, TurnOpenedBy(c, prompt)), used.(traces := used.traces + {Identity(c)}))
  {
    hide Valid, Grows, NamedSpan;
    var turn := TurnOpenedBy(c, prompt);
    var b := PushTurn(em, turn);
    var wide := used.(traces := used.traces + {Identity(c)});
    forall t | 0 <= t < |b.turns| ensures NamedTurn(b, t, b.turns[t], wide) && UniqueIds(b.turns[t].spans) {
      if t < |em.turns| {
        OldTurnNamed(em, b, t, used, wide);
      } else {
        RootNamed(b, t, c, turn, wide);
      }
    }
    forall t | 0 <= t < |em.turns| ensures em.turns[t].traceId != turn.traceId {
      assert NamedTurn(em, t, em.turns[t], used);
    }
  }

  lemma RootNamed(b: Em, t: nat, c: Call, turn: Turn, used: Used)
    requires c.chain != [] && turn.spans == [RootSpanOf(c)] && turn.traceId == Trace(Identity(c))
    requires Identity(c) in used.traces
    ensures NamedTurn(b, t, turn, used) && UniqueIds(turn.spans) && Rooted(turn)
  {
  }

  lemma PushTurnSound(em: Em, c: Call, prompt: Option<Hash>, ctx: Ctx)
    requires Sound(em, ctx) && c.chain != [] && Identity(c) !in ctx.used.traces
    ensures Sound(PushTurn(em, TurnOpenedBy(c, prompt)),
                  ctx.(used := ctx.used.(traces := ctx.used.traces + {Identity(c)})))
  {
    hide Valid, Grows, Linked, Fed, Names, Rooted, PushTurn;
    var turn := TurnOpenedBy(c, prompt);
    var b := PushTurn(em, turn);
    var used := ctx.used.(traces := ctx.used.traces + {Identity(c)});
    assert (em.turns + [turn])[..|em.turns|] == em.turns;
    PushTurnNames(em, c, prompt, ctx.used);
    RootNamed(b, |em.turns|, c, turn, used);
    PushTurnLinks(em, turn, ctx);
  }

  lemma PushTurnLinks(em: Em, turn: Turn, ctx: Ctx)
    requires Valid(em) && Linked(em, ctx.pend) && Fed(em, ctx.owed) && turn.spans != [] && turn.links == []
    ensures Linked(PushTurn(em, turn), ctx.pend) && Fed(PushTurn(em, turn), ctx.owed)
  {
    hide Valid, LinkOk, PushTurn;
    var b := PushTurn(em, turn);
    GrowsTurns(em, b);
    forall t, i | 0 <= t < |b.turns| && 0 <= i < |b.turns[t].links| ensures LinkOk(b.turns, b.turns[t].links[i], ctx.pend) {
      LinkStays(em.turns, b.turns, em.turns[t].links[i], ctx.pend);
    }
    forall i | 0 <= i < |b.cross| ensures LinkOk(b.turns, b.cross[i], ctx.pend) {
      LinkStays(em.turns, b.turns, em.cross[i], ctx.pend);
    }
    forall k | k in b.tools ensures FedTool(b, k, ctx.owed) {
      ToolPlace(em, k);
      assert FedTool(em, k, ctx.owed);
      TurnFeedsPush(em.turns, turn, ToolEnd(em, k));
    }
  }

  lemma {:induction false} SyntheticMarked(turns: seq<Turn>, t: nat, turn: Turn)
    requires t < |turns| && turns[t].synthetic == Genuine && turn.synthetic != Genuine
    ensures CountSynthetic(turns[t := turn]) == CountSynthetic(turns) + 1
  {
    var n := |turns| - 1;
    if t == n {
      assert turns[t := turn][..n] == turns[..n];
    } else {
      assert turns[t := turn][..n] == turns[..n][t := turn];
      SyntheticMarked(turns[..n], t, turn);
    }
  }

  lemma MarkSound(em: Em, t: nat, why: Synthetic, ctx: Ctx)
    requires Sound(em, ctx) && t < |em.turns| && em.turns[t].synthetic == Genuine && why != Genuine
    ensures Sound(MarkSynthetic(em, t, why), ctx)
  {
    hide Valid, Grows, TurnsGrow, Linked, Fed, NamedTurn, UniqueIds, Rooted;
    var b := MarkSynthetic(em, t, why);
    GrowsTurns(em, b);
    SyntheticMarked(em.turns, t, b.turns[t]);
    LinkedStays(em, b, ctx.pend);
    FedStays(em, b, ctx.owed);
    forall u | 0 <= u < |b.turns|
      ensures NamedTurn(b, u, b.turns[u], ctx.used) && UniqueIds(b.turns[u].spans) && Rooted(b.turns[u])
    {
      assert NamedTurn(em, u, em.turns[u], ctx.used) && UniqueIds(em.turns[u].spans) && Rooted(em.turns[u]);
      SameFixedShape(em, b, u, ctx.used);
    }
  }

  /** Soundness looks at neither the seam nor the orphan counter. */
  lemma SameShapeSound(a: Em, b: Em, ctx: Ctx)
    requires Sound(a, ctx) && Valid(b) && b.turns == a.turns && b.cross == a.cross
    requires b.tools == a.tools && b.agents == a.agents && b.synthetic == a.synthetic
    ensures Sound(b, ctx)
  {
    hide Valid;
    forall t | 0 <= t < |b.turns| ensures NamedTurn(b, t, b.turns[t], ctx.used) {
      assert NamedTurn(a, t, a.turns[t], ctx.used);
      forall i | 0 <= i < |b.turns[t].spans|
        ensures NamedSpan(b, t, i, b.turns[t].spans[i].fixed, b.turns[t].session, ctx.used)
      {
        assert NamedSpan(a, t, i, a.turns[t].spans[i].fixed, a.turns[t].session, ctx.used);
      }
    }
    forall k | k in b.tools ensures FedTool(b, k, ctx.owed) {
      assert FedTool(a, k, ctx.owed);
      ToolPlace(a, k);
    }
  }

  /** More used names, or one more awaited link end, only weaken the claim. */
  lemma Weaken(em: Em, ctx: Ctx, wide: Ctx)
    requires Sound(em, ctx) && Within(ctx.used, wide.used) && wide.owed == ctx.owed
    requires ctx.pend == None || wide.pend == ctx.pend
    ensures Sound(em, wide)
  {
    hide Valid, Trees, Fed;
    forall t | 0 <= t < |em.turns| ensures NamedTurn(em, t, em.turns[t], wide.used) {
      assert NamedTurn(em, t, em.turns[t], ctx.used);
      forall i | 0 <= i < |em.turns[t].spans|
        ensures NamedSpan(em, t, i, em.turns[t].spans[i].fixed, em.turns[t].session, wide.used)
      {
        assert NamedSpan(em, t, i, em.turns[t].spans[i].fixed, em.turns[t].session, ctx.used);
      }
    }
    forall t, i | 0 <= t < |em.turns| && 0 <= i < |em.turns[t].links|
      ensures LinkOk(em.turns, em.turns[t].links[i], wide.pend)
    {
      assert LinkOk(em.turns, em.turns[t].links[i], ctx.pend);
    }
    forall i | 0 <= i < |em.cross| ensures LinkOk(em.turns, em.cross[i], wide.pend) {
      assert LinkOk(em.turns, em.cross[i], ctx.pend);
    }
  }
}
