/** Which trace each call lands in, and how each trace was opened and marked, in terms of the
    calls and of the order in which the traces of a session were opened. */
module SpanPlaces {
  import opened Llm
  import opened DeriveModel
  import opened SpanModel
  import opened SpanQuiet
  import opened WalkShape
  import Seams
  import SpanPresence
  import SpanPrompts
  import SpanTotals

  // ---------------------------------------------------------------- the reference

  ghost predicate LastOf(turns: seq<Turn>, t: int, s: Session) {
    TurnOf(turns, t, s) && forall u | t < u < |turns| :: turns[u].session != s
  }

  ghost predicate FirstOf(turns: seq<Turn>, t: int, s: Session) {
    TurnOf(turns, t, s) && forall u | 0 <= u < t :: turns[u].session != s
  }

  /** Trace u is the session's next one after trace t. */
  ghost predicate NextOf(turns: seq<Turn>, t: int, u: int, s: Session) {
    0 <= t < u && TurnOf(turns, u, s) && forall v | t < v < u :: turns[v].session != s
  }

  /** The session's trace running at an instant: every later-opened trace up to it had started
      by then, and the one after it had not. */
  ghost predicate LiveAt(turns: seq<Turn>, s: Session, at: int, t: int) {
    && TurnOf(turns, t, s)
    && (forall u | 0 <= u <= t && TurnOf(turns, u, s) && !FirstOf(turns, u, s) :: turns[u].startedAt <= at)
    && (forall u | NextOf(turns, t, u, s) :: turns[u].startedAt > at)
  }

  ghost predicate SpanIn(turns: seq<Turn>, t: int, id: SpanId) {
    0 <= t < |turns| && exists k :: 0 <= k < |turns[t].spans| && turns[t].spans[k].fixed.id == id
  }

  // ---------------------------------------------------------------- how traces are filed

  ghost predicate Ascending(line: seq<nat>) {
    forall i, j | 0 <= i < j < |line| :: line[i] < line[j]
  }

  /** A session's timeline lists exactly its traces, in order, and its current trace is the
      last of them. */
  ghost predicate Filed(em: Em) {
    && (forall s | s in em.timeline :: Ascending(em.timeline[s]))
    && (forall s | s in em.timeline :: s in em.cur && em.timeline[s] != [] && em.cur[s] == em.timeline[s][|em.timeline[s]| - 1])
    && (forall t | 0 <= t < |em.turns| :: em.turns[t].session in em.timeline && t in em.timeline[em.turns[t].session])
  }

  datatype Filing = Filing(session: Session, mark: Synthetic)

  /** A step files at most one trace, last, and marks no other. */
  ghost predicate Files(a: Em, b: Em, filing: Option<Filing>)
    ensures Files(a, b, filing) && filing.None? ==> b.cur == a.cur
    ensures Files(a, b, filing) && filing.Some? ==> b.cur == a.cur[filing.value.session := |a.turns|] && |b.turns| == |a.turns| + 1
  {
    && |a.turns| <= |b.turns| && (forall t | 0 <= t < |a.turns| :: b.turns[t].synthetic == a.turns[t].synthetic)
    && match filing
       case None => |b.turns| == |a.turns| && b.cur == a.cur && b.timeline == a.timeline
       case Some(Filing(s, why)) =>
         && |b.turns| == |a.turns| + 1 && b.turns[|a.turns|].synthetic == why && b.turns[|a.turns|].session == s
         && b.cur == a.cur[s := |a.turns|]
         && b.timeline == a.timeline[s := (if s in a.timeline then a.timeline[s] else []) + [|a.turns|]]
  }

  lemma FilesOn(a: Em, b: Em, c: Em, filing: Option<Filing>)
    requires Files(a, b, filing) && SameFiling(b, c) && Grows(b, c)
    ensures Files(a, c, filing)
  {
    if filing.Some? { assert TurnGrows(b.turns[|a.turns|], c.turns[|a.turns|]); }
  }

  lemma FilesNone(a: Em, b: Em)
    requires SameFiling(a, b)
    ensures Files(a, b, None)
  {
  }

  lemma LineIsThere(em: Em, s: Session)
    requires Valid(em) && s in em.timeline
    ensures em.timeline[s] != [] && forall i | 0 <= i < |em.timeline[s]| :: TurnOf(em.turns, em.timeline[s][i], s)
  {
    assert Line(em.turns, em.timeline[s], s);
  }

  lemma FilesKeepFiled(a: Em, b: Em, filing: Option<Filing>)
    requires Valid(a) && Filed(a) && Grows(a, b) && Files(a, b, filing)
    ensures Filed(b)
  {
    forall t: nat | t < |a.turns| ensures b.turns[t].session == a.turns[t].session { TurnStays(a, b, t); }
    hide Valid, Grows;
    if filing.Some? {
      var s := filing.value.session;
      if s in a.timeline { LineIsThere(a, s); }
      FiledOneMore(a, b, s);
    }
  }

  lemma FiledOneMore(a: Em, b: Em, s: Session)
    requires Filed(a) && |b.turns| == |a.turns| + 1 && b.turns[|a.turns|].session == s
    requires forall t | 0 <= t < |a.turns| :: b.turns[t].session == a.turns[t].session
    requires s in a.timeline ==> forall i | 0 <= i < |a.timeline[s]| :: a.timeline[s][i] < |a.turns|
    requires b.cur == a.cur[s := |a.turns|]
    requires b.timeline == a.timeline[s := (if s in a.timeline then a.timeline[s] else []) + [|a.turns|]]
    ensures Filed(b)
  {
    var line := if s in a.timeline then a.timeline[s] else [];
    assert Ascending(line + [|a.turns|]);
    assert (line + [|a.turns|])[|line|] == |a.turns|;
    forall t | 0 <= t < |a.turns| ensures b.turns[t].session in b.timeline && t in b.timeline[b.turns[t].session] {
      assert t in a.timeline[a.turns[t].session];
    }
  }

  // ---------------------------------------------------------------- what each step files

  lemma OpenTraceFiles(em: Em, c: Call, prompt: Option<Hash>)
    requires Valid(em) && c.chain != []
    ensures Files(em, OpenTrace(em, c, prompt), Some(Filing(c.session, if c.session in em.seam then PostCompaction else Genuine)))
  {
    hide Valid, Grows, SeamLink, AddLink;
    var pushed := PushTurn(em, TurnOpenedBy(c, prompt));
    if c.session in em.seam {
      var marked := MarkSynthetic(pushed, |em.turns|, PostCompaction);
      var taken := TakeSeam(pushed, c.session, |em.turns|);
      AddLinkQuietly(taken, |em.turns|, SeamLink(pushed, c));
      FilesOn(em, taken, OpenTrace(em, c, prompt), Some(Filing(c.session, PostCompaction)));
    }
  }

  function EnsureFiles(em: Em, c: Call): Option<Filing> {
    if c.session in em.cur then None else Some(Filing(c.session, ShadowOpener))
  }

  lemma EnsureTraceFiles(em: Em, c: Call)
    requires Valid(em) && c.chain != []
    ensures Files(em, EnsureTrace(em, c), EnsureFiles(em, c))
  {
    hide Valid, Grows, OpenTrace;
    if c.session !in em.cur { OpenTraceFiles(em, c, None); }
  }

  function MainFiles(em: Em, c: Call): Option<Filing>
    requires c.Valid() && c.chain != []
  {
    if c.session !in em.cur || Prompt(c).Some? then Some(Filing(c.session, if c.session in em.seam then PostCompaction else Genuine))
    else None
  }

  lemma MainCallFiles(em: Em, c: Call)
    requires Valid(em) && c.Valid() && c.chain != []
    ensures Files(em, MainCall(em, c), MainFiles(em, c))
  {
    hide Valid, Grows, Prompt, EmitConversation, OpenTrace, Files, Quiet;
    var started := if c.session !in em.cur || Prompt(c).Some? then OpenTrace(em, c, Prompt(c)) else em;
    if MainFiles(em, c).Some? { OpenTraceFiles(em, c, Prompt(c)); } else { QuietItself(em); FilesNone(em, em); }
    CurrentTurn(started, c.session);
    var t := started.cur[c.session];
    ConversationQuietly(started, c, t, RootIdAt(started, t));
    FilesOn(em, started, MainCall(em, c), MainFiles(em, c));
  }

  lemma CompactionCallFiles(em: Em, c: Call)
    requires Valid(em) && c.chain != []
    ensures Files(em, CompactionCall(em, c), EnsureFiles(em, c))
  {
    hide Valid, Grows, EnsureTrace, LlmSpanOf, AddSpan, Quiet, SameFiling;
    var host := EnsureTrace(em, c);
    EnsureTraceFiles(em, c);
    CurrentTurn(host, c.session);
    var t := host.cur[c.session];
    var added := AddSpan(host, t, LlmSpanOf(c, RootIdAt(host, t), []));
    AddSpanQuietly(host, t, LlmSpanOf(c, RootIdAt(host, t), []));
    FilesOn(em, host, added, EnsureFiles(em, c));
    FilesSeam(em, added, CompactionCall(em, c), EnsureFiles(em, c));
  }

  lemma FilesSeam(a: Em, b: Em, c: Em, filing: Option<Filing>)
    requires Files(a, b, filing) && c.turns == b.turns && c.cur == b.cur && c.timeline == b.timeline
    ensures Files(a, c, filing)
  {
  }

  function ThreadFiles(em: Em, c: Call): Option<Filing> {
    if Rootless(em, c) then EnsureFiles(em, c) else None
  }

  lemma EnsureAgentFiles(em: Em, c: Call)
    requires Valid(em) && c.chain != []
    ensures Files(em, EnsureAgent(em, c), ThreadFiles(em, c))
  {
    hide Valid, Grows, EnsureTrace, AddLink, AddSpan, Anchor, Quiet, Files;
    if ThreadKey(c) in em.agents {
      QuietItself(em);
      FilesNone(em, em);
    } else if Rootless(em, c) {
      var host := EnsureTrace(em, c);
      EnsureTraceFiles(em, c);
      CurrentTurn(host, c.session);
      var t := host.cur[c.session];
      var sp := AgentSpanOf(c, RootIdAt(host, t));
      AddSpanQuietly(host, t, sp);
      FilesOn(em, host, AddSpan(host, t, sp), EnsureFiles(em, c));
      FilesSeam(em, AddSpan(host, t, sp), RootedAgent(em, c), EnsureFiles(em, c));
    } else {
      SpawnAgentFiles(em, c);
    }
  }

  lemma SpawnAgentFiles(em: Em, c: Call)
    requires Valid(em) && ThreadKey(c) !in em.agents && Key(c.session, Anchor(c)) in em.tools
    ensures Files(em, SpawnAgent(em, c, Key(c.session, Anchor(c))), None)
  {
    hide Valid, Grows, AddLink, AddSpan, Anchor, Quiet, Files;
    var task := Key(c.session, Anchor(c));
    ToolPlace(em, task);
    var t := em.tools[task].turn;
    var id := em.turns[t].traceId;
    var l := Link(id, SubAgent(c.thread), id, ToolCall(task.id), Rejoin);
    AddLinkQuietly(em, t, l);
    var linked := AddLink(em, t, l);
    TurnStays(em, linked, t);
    var sp := AgentSpanOf(c, ToolCall(task.id));
    AddSpanQuietly(linked, t, sp);
    QuietOn(em, linked, AddSpan(linked, t, sp));
    FilesNone(em, AddSpan(linked, t, sp));
    FilesSeam(em, AddSpan(linked, t, sp), SpawnAgent(em, c, task), None);
  }

  lemma ThreadCallFiles(em: Em, c: Call)
    requires Valid(em) && c.Valid() && c.chain != []
    ensures Files(em, ThreadCall(em, c), ThreadFiles(em, c))
  {
    hide Valid, Grows, EnsureAgent, EmitConversation, StretchAgent, Quiet, SameFiling, Files, Rootless;
    var hosted := EnsureAgent(em, c);
    EnsureAgentFiles(em, c);
    AgentPlace(hosted, ThreadKey(c));
    var spoken := EmitConversation(hosted, c, hosted.agents[ThreadKey(c)].turn, SubAgent(c.thread));
    ConversationQuietly(hosted, c, hosted.agents[ThreadKey(c)].turn, SubAgent(c.thread));
    FilesOn(em, hosted, spoken, ThreadFiles(em, c));
    StretchQuietly(spoken, c);
    FilesOn(em, spoken, ThreadCall(em, c), ThreadFiles(em, c));
  }

  function ShadowFiles(em: Em, c: Call): Option<Filing> {
    if Unhosted(em, c) then EnsureFiles(em, c) else None
  }

  lemma ShadowCallFiles(em: Em, c: Call)
    requires Valid(em) && c.Valid() && c.chain != []
    ensures Files(em, ShadowCall(em, c), ShadowFiles(em, c))
  {
    hide Valid, Grows, EnsureTrace, AddLink, AddSpan, TraceAt, LlmSpanOf, FreshInput, Quiet, Files;
    if Unhosted(em, c) {
      var host := EnsureTrace(em, c);
      EnsureTraceFiles(em, c);
      CurrentTurn(host, c.session);
      var t := TraceAt(host, c);
      var counted := CountOrphan(host);
      FilesSeam(em, host, counted, ShadowFiles(em, c));
      AddSpanQuietly(counted, t, LlmSpanOf(c, RootIdAt(host, t), FreshInput(c)));
      FilesOn(em, counted, ShadowCall(em, c), ShadowFiles(em, c));
    } else {
      var key := Key(c.session, c.anchor);
      ToolPlace(em, key);
      var t := em.tools[key].turn;
      var sp := LlmSpanOf(c, ToolCall(key.id), FreshInput(c));
      var added := AddSpan(em, t, sp);
      AddSpanQuietly(em, t, sp);
      var l := Link(em.turns[t].traceId, LlmCall(Identity(c)), em.turns[t].traceId, ToolCall(key.id), Verdict);
      AddLinkQuietly(added, t, l);
      QuietOn(em, added, AddLink(added, t, l));
      FilesNone(em, ShadowCall(em, c));
    }
  }

  // ---------------------------------------------------------------- the running trace

  lemma {:induction false} LiveTraceMeans(em: Em, line: seq<nat>, s: Session, at: int, i: nat) returns (j: nat)
    requires 1 <= i <= |line| && forall m | 0 <= m < |line| :: TurnOf(em.turns, line[m], s)
    requires forall m | 1 <= m < i && TurnOf(em.turns, line[m], s) :: em.turns[line[m]].startedAt <= at
    ensures j < |line| && LiveTrace(em, line, s, at, i, line[i - 1]) == line[j]
    ensures forall m | 1 <= m <= j :: em.turns[line[m]].startedAt <= at
    ensures j + 1 < |line| ==> em.turns[line[j + 1]].startedAt > at
    decreases |line| - i
  {
    j := i - 1;
    if i < |line| {
      assert TurnOf(em.turns, line[i], s);
      if em.turns[line[i]].startedAt <= at { j := LiveTraceMeans(em, line, s, at, i + 1); }
    }
  }

  /** Of a line that lists a session's traces in order, the last up to an instant is live. */
  lemma LineIsLive(turns: seq<Turn>, line: seq<nat>, s: Session, at: int, j: nat)
    requires Ascending(line) && j < |line| && forall u :: u in line <==> TurnOf(turns, u, s)
    requires forall m | 1 <= m <= j && TurnOf(turns, line[m], s) :: turns[line[m]].startedAt <= at
    requires j + 1 < |line| && TurnOf(turns, line[j + 1], s) ==> turns[line[j + 1]].startedAt > at
    ensures LiveAt(turns, s, at, line[j])
  {
    forall u | 0 <= u <= line[j] && TurnOf(turns, u, s) && !FirstOf(turns, u, s) ensures turns[u].startedAt <= at {
      var m :| 0 <= m < |line| && line[m] == u;
      var v :| 0 <= v < u && turns[v].session == s;
      assert TurnOf(turns, v, s);
      var n :| 0 <= n < |line| && line[n] == v;
      assert 1 <= m <= j;
    }
    forall u | NextOf(turns, line[j], u, s) ensures turns[u].startedAt > at {
      var m :| 0 <= m < |line| && line[m] == u;
      assert line[j] < line[j + 1] <= u && TurnOf(turns, line[j + 1], s);
    }
  }

  lemma FiledLine(em: Em, s: Session)
    requires Valid(em) && Filed(em) && s in em.timeline
    ensures Ascending(em.timeline[s]) && forall u :: u in em.timeline[s] <==> TurnOf(em.turns, u, s)
  {
    LineIsThere(em, s);
  }

  /** The scan of a session's timeline finds the trace running when the call was made. */
  lemma TraceAtIsLive(em: Em, c: Call)
    requires Valid(em) && Filed(em) && c.session in em.cur
    ensures LiveAt(em.turns, c.session, c.at, TraceAt(em, c))
  {
    CurrentTurn(em, c.session);
    LineIsThere(em, c.session);
    FiledLine(em, c.session);
    hide Valid, Filed, LiveAt, Ascending;
    var j := LiveTraceMeans(em, em.timeline[c.session], c.session, c.at, 1);
    LineIsLive(em.turns, em.timeline[c.session], c.session, c.at, j);
  }

  lemma CurrentIsLast(em: Em, s: Session)
    requires Valid(em) && Filed(em) && s in em.cur
    ensures LastOf(em.turns, em.cur[s], s)
  {
    CurrentTurn(em, s);
    FiledLine(em, s);
    var line := em.timeline[s];
    forall u | em.cur[s] < u < |em.turns| ensures em.turns[u].session != s {
      assert TurnOf(em.turns, u, s) <==> u in line;
    }
  }

  // ---------------------------------------------------------------- who opened a trace

  /** What call i gives a trace it opens: its identity, session, time and prompt, and the mark
      of a continuation when its session awaited one, or of a trace no prompt opened. */
  ghost predicate Opener(calls: seq<Call>, i: nat, turn: Turn)
    requires WellFormed(calls)
  {
    && i < |calls| && calls[i].chain != []
    && var c := calls[i];
       && turn.traceId == Trace(Identity(c)) && turn.session == c.session && turn.startedAt == c.at
       && if c.kind == Main && c.thread == "" then
            && turn.prompt == Prompt(c)
            && turn.synthetic == if Seams.Awaiting(calls, i, c.session).Some? then PostCompaction else Genuine
          else
            turn.prompt == None && turn.synthetic == ShadowOpener
  }

  ghost predicate HeadTold(calls: seq<Call>, turn: Turn)
    requires WellFormed(calls)
  {
    exists i: nat :: Opener(calls, i, turn)
  }

  ghost predicate Headed(calls: seq<Call>, turns: seq<Turn>)
    requires WellFormed(calls)
  {
    forall t | 0 <= t < |turns| :: HeadTold(calls, turns[t])
  }

  lemma StepHeads(calls: seq<Call>, i: nat, a: Em, b: Em, head: Option<Turn>, filing: Option<Filing>)
    requires WellFormed(calls) && Headed(calls, a.turns) && Opened(a.turns, b.turns, head) && Files(a, b, filing)
    requires head.Some? <==> filing.Some?
    requires head.Some? ==> Opener(calls, i, head.value.(synthetic := filing.value.mark))
    ensures Headed(calls, b.turns)
  {
    forall t | 0 <= t < |b.turns| ensures HeadTold(calls, b.turns[t]) {
      if t < |a.turns| {
        if head.Some? { assert SameHead(a.turns[t], b.turns[..|a.turns|][t]); } else { assert SameHead(a.turns[t], b.turns[t]); }
        assert HeadTold(calls, a.turns[t]);
        var o: nat :| Opener(calls, o, a.turns[t]);
        assert Opener(calls, o, b.turns[t]);
      } else {
        assert Opener(calls, i, b.turns[t]);
      }
    }
  }

  ghost predicate Homed(calls: seq<Call>, em: Em)
    requires WellFormed(calls)
    ensures Homed(calls, em) ==> Filed(em) && Headed(calls, em.turns)
  {
    Filed(em) && Headed(calls, em.turns)
  }

  lemma StepHomed(calls: seq<Call>, i: nat, a: Em, b: Em, head: Option<Turn>, filing: Option<Filing>)
    requires WellFormed(calls) && Valid(a) && Grows(a, b) && Homed(calls, a)
    requires Opened(a.turns, b.turns, head) && Files(a, b, filing) && (head.Some? <==> filing.Some?)
    requires head.Some? ==> Opener(calls, i, head.value.(synthetic := filing.value.mark))
    ensures Homed(calls, b)
  {
    hide Valid, Grows, Headed, Filed, Opener, Opened, Files;
    FilesKeepFiled(a, b, filing);
    StepHeads(calls, i, a, b, head, filing);
  }

  /** A trace synthesized for a call that is no main call of the spine. */
  lemma EnsuresOpener(calls: seq<Call>, i: nat)
    requires WellFormed(calls) && i < |calls| && calls[i].chain != [] && (calls[i].kind != Main || calls[i].thread != "")
    ensures Opener(calls, i, TurnOpenedBy(calls[i], None).(synthetic := ShadowOpener))
  {
  }

  lemma SpineStepHomed(calls: seq<Call>, n: nat)
    requires WellFormed(calls) && n < |calls| && Homed(calls, Spine(calls, n))
    ensures Homed(calls, Spine(calls, n + 1))
  {
    hide Valid, Grows, Homed, Spine, MainCall, CompactionCall, Prompt, Emitted, Opened, Files, Opener, TurnOpenedBy, Seams.Awaiting;
    SpineUnfolds(calls, n);
    var em, c := Spine(calls, n), calls[n];
    if c.chain != [] && IsSpine(c) {
      if c.kind == Main {
        Seams.SeamFollowsCalls(calls, n, c.session);
        MainMoves(em, c);
        MainCallFiles(em, c);
        if MainOpens(em, c).Some? { MainOpener(calls, n, c.session in em.seam); }
        StepHomed(calls, n, em, MainCall(em, c), MainOpens(em, c), MainFiles(em, c));
      } else {
        CompactionMoves(em, c);
        CompactionCallFiles(em, c);
        EnsuresOpener(calls, n);
        StepHomed(calls, n, em, CompactionCall(em, c), EnsureOpens(em, c), EnsureFiles(em, c));
      }
    }
  }

  lemma MainOpener(calls: seq<Call>, n: nat, armed: bool)
    requires WellFormed(calls) && n < |calls| && calls[n].chain != [] && calls[n].kind == Main && calls[n].thread == ""
    requires armed <==> Seams.Awaiting(calls, n, calls[n].session).Some?
    ensures Opener(calls, n, TurnOpenedBy(calls[n], Prompt(calls[n])).(synthetic := if armed then PostCompaction else Genuine))
  {
    hide Prompt, Seams.Awaiting;
  }

  lemma {:induction false} SpineHomed(calls: seq<Call>, n: nat)
    requires WellFormed(calls) && n <= |calls|
    ensures Homed(calls, Spine(calls, n))
  {
    hide Valid, Spine, Homed;
    if n == 0 {
      SpanPrompts.NothingWalked(calls);
      NothingHomed(calls);
    } else {
      SpineHomed(calls, n - 1);
      SpineStepHomed(calls, n - 1);
    }
  }

  lemma NothingHomed(calls: seq<Call>)
    requires WellFormed(calls)
    ensures Homed(calls, EMPTY)
  {
  }

  // ---------------------------------------------------------------- where calls land

  lemma StaysIn(a: Em, b: Em, t: int, id: SpanId)
    requires Grows(a, b) && SpanIn(a.turns, t, id)
    ensures SpanIn(b.turns, t, id)
  {
    assert TurnGrows(a.turns[t], b.turns[t]);
    var k :| 0 <= k < |a.turns[t].spans| && a.turns[t].spans[k].fixed.id == id;
    assert SpanGrows(a.turns[t].spans[k], b.turns[t].spans[k]);
  }

  lemma AddedIn(em: Em, t: nat, sp: Span)
    requires Valid(em) && t < |em.turns|
    ensures SpanIn(AddSpan(em, t, sp).turns, t, sp.fixed.id)
  {
    hide Valid, Grows;
    assert Points(AddSpan(em, t, sp).turns, Ref(t, |em.turns[t].spans|), em.turns[t].session, sp.fixed.kind, sp.fixed.id);
  }

  lemma LlmIs(c: Call, parent: SpanId, input: seq<ContentBlock>)
    requires c.chain != []
    ensures LlmSpanOf(c, parent, input).fixed.id == LlmCall(Identity(c))
  {
  }

  lemma ConversationIn(em: Em, c: Call, t: nat, parent: SpanId)
    requires Valid(em) && c.Valid() && c.chain != [] && t < |em.turns| && em.turns[t].session == c.session
    ensures SpanIn(EmitConversation(em, c, t, parent).turns, t, LlmCall(Identity(c)))
  {
    hide Valid, Grows, ScanRequest, LlmSpanOf, AddSpan, LinkFeeds, EmitTools, FreshInput, SpanIn;
    var scan := ScanRequest(em, c, t, parent, 0, []);
    var sp := LlmSpanOf(c, parent, FreshInput(c));
    var withLlm := AddSpan(scan.0, t, sp);
    AddedIn(scan.0, t, sp);
    LlmIs(c, parent, FreshInput(c));
    var fed := LinkFeeds(withLlm, scan.1, t, LlmCall(Identity(c)), 0);
    GrowsTransitive(em, scan.0, withLlm);
    GrowsTransitive(em, withLlm, fed);
    TurnStays(em, fed, t);
    StaysIn(withLlm, fed, t, LlmCall(Identity(c)));
    StaysIn(fed, EmitConversation(em, c, t, parent), t, LlmCall(Identity(c)));
  }

  /** A spine call lands in the last trace of its session. */
  lemma SpineStepLands(em: Em, c: Call)
    requires Valid(em) && Filed(em) && c.Valid() && c.chain != [] && IsSpine(c)
    ensures exists t :: LastOf(SpineStep(em, c).turns, t, c.session) && SpanIn(SpineStep(em, c).turns, t, LlmCall(Identity(c)))
  {
    hide Valid, Grows, Filed, Prompt, EmitConversation, OpenTrace, EnsureTrace, LlmSpanOf, AddSpan, LastOf, SpanIn, Files, Quiet;
    var r := SpineStep(em, c);
    if c.kind == Main {
      MainCallFiles(em, c);
      FilesKeepFiled(em, r, MainFiles(em, c));
      var started := if c.session !in em.cur || Prompt(c).Some? then OpenTrace(em, c, Prompt(c)) else em;
      CurrentTurn(started, c.session);
      ConversationIn(started, c, started.cur[c.session], RootIdAt(started, started.cur[c.session]));
    } else {
      CompactionCallFiles(em, c);
      FilesKeepFiled(em, r, EnsureFiles(em, c));
      var host := EnsureTrace(em, c);
      CurrentTurn(host, c.session);
      var sp := LlmSpanOf(c, RootIdAt(host, host.cur[c.session]), []);
      AddedIn(host, host.cur[c.session], sp);
      LlmIs(c, RootIdAt(host, host.cur[c.session]), []);
    }
    CurrentIsLast(r, c.session);
  }

  /** Call n of the spine lands in the trace its session had last opened when the spine had
      walked up to it. */
  lemma SpineCallsLand(calls: seq<Call>, n: nat)
    requires WellFormed(calls) && n < |calls| && calls[n].chain != [] && IsSpine(calls[n])
    ensures exists t :: LastOf(Spine(calls, n + 1).turns, t, calls[n].session)
                        && SpanIn(Walk(calls).turns, t, LlmCall(Identity(calls[n])))
  {
    hide Valid, Grows, Spine, SpineStep, Fixpoint, Degrade, Shadows, Only, Homed, Filed, Headed, LastOf, SpanIn;
    SpineHomed(calls, n);
    SpineUnfolds(calls, n);
    SpineStepLands(Spine(calls, n), calls[n]);
    var t :| LastOf(Spine(calls, n + 1).turns, t, calls[n].session) && SpanIn(Spine(calls, n + 1).turns, t, LlmCall(Identity(calls[n])));
    SpineOnlyGrows(calls, n + 1, |calls|);
    GrowsTransitive(Spine(calls, n + 1), Spine(calls, |calls|), Walk(calls)) by { WalkGrows(calls); }
    StaysIn(Spine(calls, n + 1), Walk(calls), t, LlmCall(Identity(calls[n])));
  }

  lemma {:induction false} SpineOnlyGrows(calls: seq<Call>, m: nat, n: nat)
    requires WellFormed(calls) && m <= n <= |calls|
    ensures Grows(Spine(calls, m), Spine(calls, n))
    decreases n - m
  {
    hide Valid, Grows, Spine, SpineStep;
    if m == n {
      GrowsReflexive(Spine(calls, m));
    } else {
      SpineOnlyGrows(calls, m, n - 1);
      SpineUnfolds(calls, n - 1);
      SpanPresence.SpineStepGrows(Spine(calls, n - 1), calls[n - 1]);
      GrowsTransitive(Spine(calls, m), Spine(calls, n - 1), Spine(calls, n));
    }
  }

  lemma WalkGrows(calls: seq<Call>)
    requires WellFormed(calls)
    ensures Grows(Spine(calls, |calls|), Walk(calls))
  {
    hide Valid, Grows, Spine, Fixpoint, Degrade, Shadows, Only;
    var spine := Spine(calls, |calls|);
    var threaded := ThreadPhase(spine, Only(calls, IsThread));
    GrowsTransitive(spine, threaded, Walk(calls));
  }

  // ---------------------------------------------------------------- threads

  /** An agent no tool supports stands in the last trace of its session; one under its tool
      has the edge back to it. */
  ghost predicate RootedLast(em: Em)
    requires Valid(em)
  {
    forall k | k in em.agents :: AgentHome(em, k)
  }

  function AgentOf(em: Em, k: Key): (sp: Span)
    requires Valid(em) && k in em.agents
    ensures sp.fixed.kind == AgentSpan && sp.fixed.id == SubAgent(k.id)
  {
    AgentPlace(em, k);
    SpanAt(em, em.agents[k])
  }

  ghost predicate AgentHome(em: Em, k: Key)
    requires Valid(em) && k in em.agents
  {
    AgentPlace(em, k);
    var parent := AgentOf(em, k).fixed.parent;
    || (parent == Some(RootIdAt(em, em.agents[k].turn)) && k.session in em.cur && em.cur[k.session] == em.agents[k].turn)
    || exists a :: parent == Some(ToolCall(a)) && SpanPresence.HasLink(em, SubAgent(k.id), ToolCall(a), Rejoin)
  }

  /** Sessions that have a trace keep their current one. */
  ghost predicate KeepsCurrent(a: Em, b: Em) {
    forall s | s in a.cur :: s in b.cur && b.cur[s] == a.cur[s]
  }

  lemma AgentStaysHome(a: Em, b: Em, k: Key)
    requires Valid(a) && Valid(b) && Grows(a, b) && KeepsCurrent(a, b) && k in a.agents && AgentHome(a, k)
    ensures k in b.agents && AgentHome(b, k)
  {
    AgentPlace(a, k);
    TurnStays(a, b, a.agents[k].turn);
    assert b.agents[k] == a.agents[k] && AgentOf(b, k).fixed == AgentOf(a, k).fixed;
    assert RootIdAt(b, a.agents[k].turn) == RootIdAt(a, a.agents[k].turn) by { RootIdStays(a, b, a.agents[k].turn); }
    hide Valid, Grows, SpanPresence.HasLink;
    if t :| AgentOf(a, k).fixed.parent == Some(ToolCall(t)) && SpanPresence.HasLink(a, SubAgent(k.id), ToolCall(t), Rejoin) {
      SpanPresence.LinksStay(a, b, SubAgent(k.id), ToolCall(t), Rejoin);
    }
  }

  lemma RootIdStays(a: Em, b: Em, t: nat)
    requires Valid(a) && Valid(b) && Grows(a, b) && t < |a.turns|
    ensures t < |b.turns| && RootIdAt(b, t) == RootIdAt(a, t)
  {
    TurnStays(a, b, t);
    hide Valid;
    assert SpanGrows(a.turns[t].spans[0], b.turns[t].spans[0]);
  }

  lemma HostKeepsCurrent(a: Em, b: Em, c: Call, asked: bool)
    requires Files(a, b, if asked then EnsureFiles(a, c) else None)
    ensures KeepsCurrent(a, b)
  {
  }

  lemma AddedAgent(em: Em, t: nat, sp: Span, k: Key)
    requires Valid(em) && TurnOf(em.turns, t, k.session) && k !in em.agents
    requires sp.fixed.kind == AgentSpan && sp.fixed.id == SubAgent(k.id)
    ensures var r := AddAgent(em, t, sp, k);
            && r.agents[k] == Ref(t, |em.turns[t].spans|) && r.agents[k].span < |r.turns[t].spans|
            && SpanAt(r, r.agents[k]) == sp && r.cur == em.cur
  {
    hide Valid, Grows;
  }

  lemma AgentShape(c: Call, parent: SpanId)
    ensures var sp := AgentSpanOf(c, parent);
            sp.fixed.kind == AgentSpan && sp.fixed.id == SubAgent(c.thread) && sp.fixed.parent == Some(parent)
            && sp.fixed.startedAt == c.at && sp.duration == 0
  {
  }

  lemma NewAgentHome(em: Em, c: Call)
    requires Valid(em) && c.chain != [] && ThreadKey(c) !in em.agents
    ensures var r := EnsureAgent(em, c);
            && AgentHome(r, ThreadKey(c))
            && AgentOf(r, ThreadKey(c)).fixed.startedAt == c.at && AgentOf(r, ThreadKey(c)).duration == 0
  {
    hide Valid, Grows, EnsureTrace, AddLink, AddAgent, Anchor, AgentSpanOf, TurnsGrow, SpanPresence.HasLink;
    var task := Key(c.session, Anchor(c));
    var r := EnsureAgent(em, c);
    AgentPlace(r, ThreadKey(c));
    if task in em.tools {
      ToolPlace(em, task);
      var t := em.tools[task].turn;
      var id := em.turns[t].traceId;
      var linked := AddLink(em, t, Link(id, SubAgent(c.thread), id, ToolCall(task.id), Rejoin));
      TurnStays(em, linked, t);
      AgentShape(c, ToolCall(task.id));
      AddedAgent(linked, t, AgentSpanOf(c, ToolCall(task.id)), ThreadKey(c));
      SpanPresence.AddedLink(em, t, Link(id, SubAgent(c.thread), id, ToolCall(task.id), Rejoin));
      SpanPresence.LinksStay(linked, r, SubAgent(c.thread), ToolCall(task.id), Rejoin);
    } else {
      var host := EnsureTrace(em, c);
      CurrentTurn(host, c.session);
      var t := host.cur[c.session];
      AgentShape(c, RootIdAt(host, t));
      AddedAgent(host, t, AgentSpanOf(c, RootIdAt(host, t)), ThreadKey(c));
      RootIdStays(host, r, t);
    }
  }

  /** What thread and shadow calls keep: traces filed and headed, rooted agents last. */
  ghost predicate Settled(calls: seq<Call>, em: Em)
    requires WellFormed(calls) && Valid(em)
    ensures Settled(calls, em) ==> Homed(calls, em) && RootedLast(em)
  {
    Homed(calls, em) && RootedLast(em)
  }

  lemma ThreadCallSettled(calls: seq<Call>, em: Em, c: Call)
    requires WellFormed(calls) && Valid(em) && Settled(calls, em) && c in calls && c.Valid() && c.chain != [] && IsThread(c)
    ensures Settled(calls, ThreadCall(em, c))
  {
    hide Valid, Grows, Homed, ThreadCall, Emitted, Opened, Files, Opener, TurnOpenedBy, AgentHome, KeepsCurrent, Rootless;
    var i :| 0 <= i < |calls| && calls[i] == c;
    var r := ThreadCall(em, c);
    ThreadMoves(em, c);
    ThreadCallFiles(em, c);
    EnsuresOpener(calls, i);
    StepHomed(calls, i, em, r, ThreadOpens(em, c), ThreadFiles(em, c));
    HostKeepsCurrent(em, r, c, Rootless(em, c));
    ThreadCallKeys(em, c);
    forall k | k in r.agents ensures AgentHome(r, k) {
      if k in em.agents {
        AgentStaysHome(em, r, k);
      } else {
        NewAgentStaysHome(em, c);
      }
    }
  }

  lemma NewAgentStaysHome(em: Em, c: Call)
    requires Valid(em) && c.Valid() && c.chain != [] && ThreadKey(c) !in em.agents
    ensures AgentHome(ThreadCall(em, c), ThreadKey(c))
  {
    hide Valid, Grows, EnsureAgent, EmitConversation, StretchAgent, AgentHome, Quiet, SameFiling;
    NewAgentHome(em, c);
    var hosted := EnsureAgent(em, c);
    AgentPlace(hosted, ThreadKey(c));
    var t := hosted.agents[ThreadKey(c)].turn;
    var spoken := EmitConversation(hosted, c, t, SubAgent(c.thread));
    ConversationQuietly(hosted, c, t, SubAgent(c.thread));
    StretchQuietly(spoken, c);
    GrowsTransitive(hosted, spoken, ThreadCall(em, c));
    AgentStaysHome(hosted, ThreadCall(em, c), ThreadKey(c));
  }

  lemma {:induction false} DegradeSettled(calls: seq<Call>, em: Em, o: seq<Call>, i: nat)
    requires WellFormed(calls) && Valid(em) && Settled(calls, em) && Emittable(o) && i <= |o|
    requires forall c | c in o :: c in calls && IsThread(c)
    ensures Settled(calls, Degrade(em, o, i))
    decreases |o| - i
  {
    hide Valid, Grows, ThreadCall, Settled;
    if i < |o| {
      ThreadCallSettled(calls, em, o[i]);
      DegradeSettled(calls, ThreadCall(em, o[i]), o, i + 1);
    }
  }

  // ---------------------------------------------------------------- shadows

  /** A shadow call stands beside the tool it is anchored to, or, anchored to none, in the
      trace of its session running at its time. */
  ghost predicate ShadowHome(em: Em, c: Call)
    requires c.chain != []
  {
    var key := Key(c.session, c.anchor);
    exists t :: SpanIn(em.turns, t, LlmCall(Identity(c)))
                && if key in em.tools then t == em.tools[key].turn else LiveAt(em.turns, c.session, c.at, t)
  }

  lemma LiveStays(a: Em, b: Em, s: Session, at: int, t: int)
    requires Grows(a, b) && LiveAt(a.turns, s, at, t)
    requires forall u | |a.turns| <= u < |b.turns| :: b.turns[u].session != s
    ensures LiveAt(b.turns, s, at, t)
  {
    forall u: nat | u < |a.turns|
      ensures u < |b.turns| && b.turns[u].session == a.turns[u].session && b.turns[u].startedAt == a.turns[u].startedAt
    {
      TurnStays(a, b, u);
    }
    hide Grows;
    forall u | 0 <= u <= t && TurnOf(b.turns, u, s) && !FirstOf(b.turns, u, s) ensures b.turns[u].startedAt <= at {
      assert TurnOf(a.turns, u, s) && !FirstOf(a.turns, u, s);
    }
    forall u | NextOf(b.turns, t, u, s) ensures b.turns[u].startedAt > at {
      assert NextOf(a.turns, t, u, s);
    }
  }

  lemma ShadowStaysHome(a: Em, b: Em, d: Call, c: Call)
    requires Valid(a) && Filed(a) && Grows(a, b) && Files(a, b, ShadowFiles(a, d)) && b.tools == a.tools
    requires c.chain != [] && ShadowHome(a, c)
    ensures ShadowHome(b, c)
  {
    hide Valid, Grows, SpanIn, LiveAt;
    var key := Key(c.session, c.anchor);
    var t :| SpanIn(a.turns, t, LlmCall(Identity(c)))
             && if key in a.tools then t == a.tools[key].turn else LiveAt(a.turns, c.session, c.at, t);
    StaysIn(a, b, t, LlmCall(Identity(c)));
    if key !in a.tools {
      LiveIsFiled(a, c.session, c.at, t);
      LiveStays(a, b, c.session, c.at, t);
    }
  }

  lemma LiveIsFiled(em: Em, s: Session, at: int, t: int)
    requires Filed(em) && LiveAt(em.turns, s, at, t)
    ensures s in em.cur
  {
  }

  lemma NewShadowHome(em: Em, c: Call)
    requires Valid(em) && Filed(em) && c.Valid() && c.chain != []
    ensures ShadowHome(ShadowCall(em, c), c)
  {
    hide Valid, Grows, Filed, EnsureTrace, AddLink, AddSpan, TraceAt, LlmSpanOf, FreshInput, SpanIn, LiveAt, Files;
    var key := Key(c.session, c.anchor);
    var r := ShadowCall(em, c);
    if key in em.tools {
      ToolPlace(em, key);
      var t := em.tools[key].turn;
      var sp := LlmSpanOf(c, ToolCall(key.id), FreshInput(c));
      var added := AddSpan(em, t, sp);
      AddedIn(em, t, sp);
      LlmIs(c, ToolCall(key.id), FreshInput(c));
      StaysIn(added, r, t, LlmCall(Identity(c)));
    } else {
      EnsureTraceFiles(em, c);
      var host := EnsureTrace(em, c);
      FilesKeepFiled(em, host, EnsureFiles(em, c));
      CurrentTurn(host, c.session);
      TraceAtIsLive(host, c);
      var t := TraceAt(host, c);
      var counted := CountOrphan(host);
      var sp := LlmSpanOf(c, RootIdAt(host, t), FreshInput(c));
      AddedIn(counted, t, sp);
      LlmIs(c, RootIdAt(host, t), FreshInput(c));
      LiveStays(counted, r, c.session, c.at, t);
    }
  }

  lemma ShadowCallSettled(calls: seq<Call>, em: Em, c: Call)
    requires WellFormed(calls) && Valid(em) && Settled(calls, em) && c in calls && c.Valid() && c.chain != [] && IsShadow(c)
    ensures Settled(calls, ShadowCall(em, c))
  {
    hide Valid, Grows, Homed, ShadowCall, Opened, Files, Opener, TurnOpenedBy, AgentHome, KeepsCurrent, Unhosted;
    var i :| 0 <= i < |calls| && calls[i] == c;
    var r := ShadowCall(em, c);
    ShadowMoves(em, c);
    ShadowCallFiles(em, c);
    EnsuresOpener(calls, i);
    StepHomed(calls, i, em, r, ShadowOpens(em, c), ShadowFiles(em, c));
    HostKeepsCurrent(em, r, c, Unhosted(em, c));
    forall k | k in r.agents ensures AgentHome(r, k) { AgentStaysHome(em, r, k); }
  }

  lemma {:induction false} ShadowsSettled(calls: seq<Call>, em: Em, shadows: seq<Call>, i: nat)
    requires WellFormed(calls) && Valid(em) && Settled(calls, em) && Emittable(shadows) && i <= |shadows|
    requires forall c | c in shadows :: c in calls && IsShadow(c)
    requires forall j | 0 <= j < i :: ShadowHome(em, shadows[j])
    ensures Settled(calls, Shadows(em, shadows, i))
    ensures forall c | c in shadows :: ShadowHome(Shadows(em, shadows, i), c)
    decreases |shadows| - i
  {
    hide Valid, Grows, ShadowCall, Settled, Homed, ShadowHome, Files, RootedLast;
    if i < |shadows| {
      var r := ShadowCall(em, shadows[i]);
      ShadowCallSettled(calls, em, shadows[i]);
      NewShadowHome(em, shadows[i]);
      ShadowCallFiles(em, shadows[i]);
      forall j | 0 <= j < i ensures ShadowHome(r, shadows[j]) { ShadowStaysHome(em, r, shadows[i], shadows[j]); }
      ShadowsSettled(calls, r, shadows, i + 1);
    }
  }

  // ---------------------------------------------------------------- the whole walk

  /** Every trace of the walk is opened, dated and marked as the calls have it; sessions'
      timelines list their traces in order; agents no tool supports stand in their session's
      last trace; and each shadow call stands where it belongs. */
  lemma WalkIsSettled(calls: seq<Call>)
    requires WellFormed(calls)
    ensures Headed(calls, Walk(calls).turns) && Filed(Walk(calls)) && RootedLast(Walk(calls))
    ensures forall c | c in calls && c.chain != [] && IsShadow(c) :: ShadowHome(Walk(calls), c)
  {
    hide Valid, Grows, Spine, ThreadPhase, Degrade, Shadows, Only, Settled, Homed, ShadowHome, Filed, Headed, RootedLast;
    var spine, shadows := Spine(calls, |calls|), Only(calls, IsShadow);
    var o := SpanPresence.ThreadOrder(calls);
    SpineHomed(calls, |calls|);
    NoAgentsYet(calls, spine);
    DegradeSettled(calls, spine, o, 0);
    ShadowsSettled(calls, Degrade(spine, o, 0), shadows, 0);
    forall c | c in calls && c.chain != [] && IsShadow(c) ensures ShadowHome(Walk(calls), c) {
      SpanTotals.OnlyMembers(calls, IsShadow, c);
    }
  }

  lemma NoAgentsYet(calls: seq<Call>, em: Em)
    requires WellFormed(calls) && em == Spine(calls, |calls|) && Homed(calls, em)
    ensures Settled(calls, em)
  {
    SpineHasNoAgents(calls, |calls|);
    hide Valid, Spine, Homed;
  }

  lemma {:induction false} SpineHasNoAgents(calls: seq<Call>, n: nat)
    requires WellFormed(calls) && n <= |calls|
    ensures Spine(calls, n).agents == map[]
  {
    hide Valid, MainCall, CompactionCall;
    if n > 0 { SpineHasNoAgents(calls, n - 1); }
  }
}
