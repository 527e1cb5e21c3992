/** Whole runs of the cassette runner: safety at every instant, convergence of a pass to
    configured priority, and the one input family that breaks the roll-back. */
module CassetteRuns {
  import opened Llm
  import opened CassetteModel
  import Urls

  datatype Op = SetTo(urls: seq<string>) | Pass(outs: seq<Outcome>)

  function Nothing(rules: Urls.Rules): World {
    World(rules, [], map[], map[])
  }

  function OutcomeAt(outs: seq<Outcome>, i: nat): Outcome {
    if i < |outs| then outs[i] else Failed
  }

  /** Refresh's first k sources. */
  function PassTo(w: World, outs: seq<Outcome>, k: nat): (r: World)
    requires k <= |w.sources|
    ensures |r.sources| == |w.sources| && r.rules == w.rules
  {
    if k == 0 then w else Refresh(PassTo(w, outs, k - 1), k - 1, OutcomeAt(outs, k - 1))
  }

  function After(w: World, op: Op): (r: World)
    ensures r.rules == w.rules
  {
    match op
    case SetTo(urls) => SetSources(w, urls)
    case Pass(outs) => PassTo(w, outs, |w.sources|)
  }

  function AfterAll(rules: Urls.Rules, ops: seq<Op>): (r: World)
    ensures r.rules == rules
  {
    if ops == [] then Nothing(rules) else After(AfterAll(rules, ops[..|ops| - 1]), ops[|ops| - 1])
  }

  /** v is what a reader may see while op runs from w: a state between two atomic actions. */
  ghost predicate Visible(w: World, op: Op, v: World) {
    match op
    case SetTo(urls) => exists k | 0 <= k <= |SetPlan(w, urls)| :: v == Run(w, SetPlan(w, urls)[..k])
    case Pass(outs) =>
      exists i | 0 <= i < |w.sources| :: MidRefresh(PassTo(w, outs, i), i, OutcomeAt(outs, i), v)
  }

  ghost predicate MidRefresh(w: World, i: nat, out: Outcome, v: World)
    requires i < |w.sources|
  {
    exists k | 0 <= k <= |RefreshPlan(w, i, out)| :: v == Run(w, RefreshPlan(w, i, out)[..k])
  }

  /** What configuration validation lets through, distinct URLs, in a safe order. Fetch
      outcomes are arbitrary. */
  ghost predicate Legal(rules: Urls.Rules, op: Op) {
    op.SetTo? ==> Distinct(op.urls) && SafeOrder(rules, op.urls)
  }

  ghost predicate Calm(w: World) {
    Settled(w) && SafeOrder(w.rules, SourceUrls(w))
  }

  lemma CalmRefresh(w: World, i: nat, out: Outcome)
    requires Calm(w) && i < |w.sources|
    ensures Calm(Refresh(w, i, out)) && SourceUrls(Refresh(w, i, out)) == SourceUrls(w)
    ensures forall v | MidRefresh(w, i, out, v) :: Documented(v)
  {
    hide Settled, Refresh, RefreshPlan, BadTakeover, Documented, SafeOrder;
    SafeOrderNeverBad(w, i, out);
    RefreshKeeps(w, i, out, 0);
    forall v | MidRefresh(w, i, out, v) ensures Documented(v) {
      var k :| 0 <= k <= |RefreshPlan(w, i, out)| && v == Run(w, RefreshPlan(w, i, out)[..k]);
      RefreshKeeps(w, i, out, k);
    }
  }

  lemma {:induction false} CalmPass(w: World, outs: seq<Outcome>, k: nat)
    requires Calm(w) && k <= |w.sources|
    ensures Calm(PassTo(w, outs, k)) && SourceUrls(PassTo(w, outs, k)) == SourceUrls(w)
  {
    hide Calm, Refresh;
    if k > 0 {
      CalmPass(w, outs, k - 1);
      CalmRefresh(PassTo(w, outs, k - 1), k - 1, OutcomeAt(outs, k - 1));
    }
  }

  lemma CalmOp(w: World, op: Op)
    requires Calm(w) && Legal(w.rules, op)
    ensures Calm(After(w, op))
    ensures forall v | Visible(w, op, v) :: Documented(v)
  {
    hide Settled, Refresh, RefreshPlan, SetSources, SetPlan, Documented, SafeOrder;
    match op
    case SetTo(urls) =>
      SetSourcesKeeps(w, urls, 0);
      forall v | Visible(w, op, v) ensures Documented(v) {
        var k :| 0 <= k <= |SetPlan(w, urls)| && v == Run(w, SetPlan(w, urls)[..k]);
        SetSourcesKeeps(w, urls, k);
      }
    case Pass(outs) =>
      CalmPass(w, outs, |w.sources|);
      forall v | Visible(w, op, v) ensures Documented(v) {
        var i :| 0 <= i < |w.sources| && MidRefresh(PassTo(w, outs, i), i, OutcomeAt(outs, i), v);
        CalmPass(w, outs, i);
        CalmRefresh(PassTo(w, outs, i), i, OutcomeAt(outs, i));
      }
  }

  /** At every instant of the run, each registered cassette has a document. */
  ghost predicate AlwaysDocumented(rules: Urls.Rules, ops: seq<Op>) {
    forall j, v | 0 <= j < |ops| && Visible(AfterAll(rules, ops[..j]), ops[j], v) :: Documented(v)
  }

  /** Over every run of safely ordered catalogues, with any fetch outcomes: between operations
      each registered cassette is owned by a configured source pinned to its name, with that
      source's document; and at every instant each registered cassette has a document. */
  lemma {:induction false} RunsStaySafe(rules: Urls.Rules, ops: seq<Op>)
    requires forall op | op in ops :: Legal(rules, op)
    ensures Calm(AfterAll(rules, ops)) && AlwaysDocumented(rules, ops)
  {
    hide After, Visible, Documented, Legal, Settled, SafeOrder;
    if ops == [] {
      NothingIsCalm(rules);
    } else {
      var n := |ops| - 1;
      RunsStaySafe(rules, ops[..n]);
      CalmOp(AfterAll(rules, ops[..n]), ops[n]);
      forall j, v | 0 <= j < |ops| && Visible(AfterAll(rules, ops[..j]), ops[j], v) ensures Documented(v) {
        if j < n { assert ops[..n][..j] == ops[..j] && ops[..n][j] == ops[j]; }
      }
    }
  }

  lemma NothingIsCalm(rules: Urls.Rules)
    ensures Calm(Nothing(rules))
  {
  }

  // ---------------------------------------------------------------- convergence

  /** The lowest index below k declaring n, or -1. */
  ghost function Lowest(decl: seq<Name>, k: nat, n: Name): (i: int)
    requires k <= |decl|
    ensures -1 <= i < k
    ensures i >= 0 ==> decl[i] == n && forall j | 0 <= j < i :: decl[j] != n
    ensures i == -1 ==> forall j | 0 <= j < k :: decl[j] != n
  {
    if k == 0 then -1
    else
      var i := Lowest(decl, k - 1, n);
      if i >= 0 then i else if decl[k - 1] == n then k - 1 else -1
  }

  /** Source i answers with an admissible document declaring decl[i], or with a 304 for a
      validator it was sent. */
  ghost predicate Answers(w: World, i: nat, out: Outcome, decl: seq<Name>)
    requires i < |w.sources| && |decl| == |w.sources|
  {
    && Urls.SourceOrigin(w.rules, w.sources[i].url).Some?
    && Urls.Usable(w.rules, Urls.SourceOrigin(w.rules, w.sources[i].url).value)
    && match out
       case Failed => false
       case NotModified => SentEtag(w, i) != ""
       case Fetched(doc, _) => doc.declared == Some(decl[i]) && doc.publishable
  }

  ghost predicate Declares(w: World, decl: seq<Name>) {
    |decl| == |w.sources| && forall i | 0 <= i < |w.sources| && w.sources[i].resolved :: w.sources[i].name == Some(decl[i])
  }

  /** After the first k sources: a name some of them declare belongs to the first of those;
      any other name is still with a source that declares it. */
  ghost predicate Prioritized(w: World, decl: seq<Name>, k: nat)
    requires |decl| == |w.sources| && k <= |decl|
  {
    forall n | Lowest(decl, k, n) >= 0 ::
      n in w.registry && w.registry[n].source == w.sources[Lowest(decl, k, n)].url
  }

  lemma OwnerDeclares(w: World, decl: seq<Name>, n: Name) returns (m: nat)
    requires Settled(w) && Declares(w, decl) && n in w.registry
    ensures m < |w.sources| && w.sources[m].url == w.registry[n].source && decl[m] == n
    ensures IndexOf(w.sources, w.registry[n].source, 0) == m
  {
    assert Owned(w, n);
    m :| Pinned(w, n, m);
    IndexOfFinds(w.sources, w.registry[n].source, m, 0);
  }

  lemma StepPrioritizes(w: World, k: nat, out: Outcome, decl: seq<Name>)
    requires Settled(w) && k < |w.sources| && Declares(w, decl) && Prioritized(w, decl, k)
    requires Answers(w, k, out, decl)
    ensures var r := Refresh(w, k, out);
            Settled(r) && SourceUrls(r) == SourceUrls(w) && Declares(r, decl) && Prioritized(r, decl, k + 1)
  {
    hide Urls.SourceOrigin, Urls.Usable, Owned, Run, Apply;
    var n := decl[k];
    var r := Refresh(w, k, out);
    var plan := RefreshPlan(w, k, out);
    assert plan[..|plan|] == plan;
    if out.NotModified? {
      assert CurrentlyPublished(w, k);
      assert w.sources[k].name == Some(n);
      RunOne(w, plan[0]);
      MarkKeeps(w, plan[0]);
      KeptPriority(w, k, decl);
    } else if MayTake(w, k, n) {
      assert Admissible(w, k, out);
      PublishKeeps(w, k, n, out.doc, out.etag);
      RunThree(w, plan[0], plan[1], plan[2]);
      assert plan == [plan[0], plan[1], plan[2]];
      TakenPriority(w, r, k, decl);
    } else {
      FailKeeps(w, w.sources[k], |plan|);
      var m := OwnerDeclares(w, decl, n);
      LosesTo(w, k, m, decl);
    }
    assert forall j | 0 <= j < |w.sources| :: r.sources[j].url == w.sources[j].url;
  }

  /** A source whose publication is current is the first to declare its name. */
  lemma KeptPriority(w: World, k: nat, decl: seq<Name>)
    requires Settled(w) && k < |w.sources| && Declares(w, decl) && Prioritized(w, decl, k)
    requires decl[k] in w.registry && w.registry[decl[k]].source == w.sources[k].url
    ensures Prioritized(w, decl, k + 1)
  {
    hide Owned, Declares;
  }

  lemma LosesTo(w: World, k: nat, m: nat, decl: seq<Name>)
    requires Settled(w) && k < |w.sources| && Declares(w, decl) && Prioritized(w, decl, k)
    requires m < k && decl[m] == decl[k]
    ensures Prioritized(w, decl, k + 1)
  {
    assert Lowest(decl, k, decl[k]) >= 0;
  }

  lemma TakenPriority(w: World, r: World, k: nat, decl: seq<Name>)
    requires Settled(w) && k < |w.sources| && Declares(w, decl) && Prioritized(w, decl, k)
    requires MayTake(w, k, decl[k]) && |r.sources| == |w.sources|
    requires forall j | 0 <= j < |w.sources| :: r.sources[j].url == w.sources[j].url
    requires decl[k] in r.registry && r.registry[decl[k]].source == w.sources[k].url
    requires forall n | n != decl[k] && n in w.registry :: n in r.registry && r.registry[n] == w.registry[n]
    ensures Prioritized(r, decl, k + 1)
  {
    var j := Lowest(decl, k, decl[k]);
    if j >= 0 {
      IndexOfFinds(w.sources, w.sources[j].url, j, 0);
    }
  }

  lemma {:induction false} PassPrioritizes(w: World, outs: seq<Outcome>, decl: seq<Name>, k: nat)
    requires Settled(w) && Declares(w, decl) && k <= |w.sources|
    requires forall i | 0 <= i < |w.sources| :: Answers(PassTo(w, outs, i), i, OutcomeAt(outs, i), decl)
    ensures var r := PassTo(w, outs, k);
            Settled(r) && SourceUrls(r) == SourceUrls(w) && Declares(r, decl) && Prioritized(r, decl, k)
  {
    hide Settled, Refresh, Answers;
    if k > 0 {
      PassPrioritizes(w, outs, decl, k - 1);
      StepPrioritizes(PassTo(w, outs, k - 1), k - 1, OutcomeAt(outs, k - 1), decl);
    }
  }

  /** A pass in which every source answers: whatever the history, each declared name is
      owned by the lowest-index source declaring it, and no other name is registered. */
  lemma PassConverges(w: World, outs: seq<Outcome>, decl: seq<Name>, n: Name)
    requires Settled(w) && Declares(w, decl)
    requires forall i | 0 <= i < |w.sources| :: Answers(PassTo(w, outs, i), i, OutcomeAt(outs, i), decl)
    ensures var r := After(w, Pass(outs));
            && (n in r.registry <==> n in decl)
            && (n in r.registry ==> r.registry[n].source == w.sources[Lowest(decl, |decl|, n)].url)
  {
    hide Settled, Refresh, Answers;
    PassPrioritizes(w, outs, decl, |w.sources|);
    var r := After(w, Pass(outs));
    if n in r.registry {
      var m := OwnerDeclares(r, decl, n);
    }
    if Lowest(decl, |decl|, n) >= 0 {
      var i := Lowest(decl, |decl|, n);
      assert SourceUrls(r)[i] == SourceUrls(w)[i];
    }
  }

  /** A displaced source comes back: once no earlier configured source declares its name,
      the next answered pass hands the name to it. */
  lemma DisplacedRegains(w: World, urls: seq<string>, outs: seq<Outcome>, decl: seq<Name>, i: nat)
    requires Settled(w) && Distinct(urls) && i < |urls| && Declares(SetSources(w, urls), decl)
    requires forall j | 0 <= j < i < |decl| :: decl[j] != decl[i]
    requires |SetSources(w, urls).sources| == |urls|
    requires forall j | 0 <= j < |urls| ::
               Answers(PassTo(SetSources(w, urls), outs, j), j, OutcomeAt(outs, j), decl)
    ensures var r := After(SetSources(w, urls), Pass(outs));
            decl[i] in r.registry && r.registry[decl[i]].source == urls[i]
  {
    hide Settled, Refresh, Answers, SetSources;
    SetSourcesKeeps(w, urls, 0);
    var v := SetSources(w, urls);
    PassConverges(v, outs, decl, decl[i]);
    assert SourceUrls(v)[i] == urls[i];
  }

  // ---------------------------------------------------------------- the exact condition

  function Passes(outss: seq<seq<Outcome>>): (r: seq<Op>)
    ensures |r| == |outss| && forall k | 0 <= k < |outss| :: r[k] == Pass(outss[k])
  {
    if outss == [] then [] else Passes(outss[..|outss| - 1]) + [Pass(outss[|outss| - 1])]
  }

  /** One catalogue, then any number of passes. */
  function RunOf(urls: seq<string>, outss: seq<seq<Outcome>>): seq<Op> {
    [SetTo(urls)] + Passes(outss)
  }

  /** Only one source answers. */
  function Lone(n: nat, k: nat, out: Outcome): (r: seq<Outcome>)
    requires k < n
    ensures |r| == n && forall i | 0 <= i < n :: r[i] == if i == k then out else Failed
  {
    seq(n, i => if i == k then out else Failed)
  }

  ghost predicate Blank(w: World, except: nat) {
    forall i | 0 <= i < |w.sources| && i != except :: w.sources[i].name.None? && !w.sources[i].resolved
  }

  lemma FailedBlank(w: World, i: nat)
    requires i < |w.sources| && w.sources[i].name.None?
    ensures Refresh(w, i, Failed) == w
  {
    hide Urls.SourceOrigin, Urls.Usable, MayTake, CurrentlyPublished, Apply;
    assert RefreshPlan(w, i, Failed) == [];
  }

  /** Sources that have no name and get no answer change nothing. */
  lemma {:induction false} QuietUpTo(w: World, outs: seq<Outcome>, k: nat)
    requires k <= |w.sources|
    requires forall i | 0 <= i < k :: OutcomeAt(outs, i) == Failed && w.sources[i].name.None?
    ensures PassTo(w, outs, k) == w
  {
    hide Refresh;
    if k > 0 {
      QuietUpTo(w, outs, k - 1);
      FailedBlank(w, k - 1);
    }
  }

  lemma {:induction false} QuietAfter(w: World, outs: seq<Outcome>, j: nat, k: nat)
    requires j < k <= |w.sources|
    requires var v := PassTo(w, outs, j + 1);
             forall i | j < i < k :: OutcomeAt(outs, i) == Failed && v.sources[i].name.None?
    ensures PassTo(w, outs, k) == PassTo(w, outs, j + 1)
  {
    hide Refresh;
    if k > j + 1 {
      QuietAfter(w, outs, j, k - 1);
      FailedBlank(PassTo(w, outs, j + 1), k - 1);
    }
  }

  lemma FreshCatalogue(rules: Urls.Rules, urls: seq<string>)
    requires Distinct(urls)
    ensures var w := SetSources(Nothing(rules), urls);
            && Settled(w) && SourceUrls(w) == urls && w.registry == map[]
            && forall i | 0 <= i < |w.sources| :: w.sources[i].name.None? && !w.sources[i].resolved
  {
    hide Settled;
    NothingIsCalm(rules);
    SetSourcesKeeps(Nothing(rules), urls, 0);
    var w := SetSources(Nothing(rules), urls);
    assert WithdrawPlan([], urls, 0) == [];
    assert SetPlan(Nothing(rules), urls) == [Configure(NextSources([], urls))];
    RunOne(Nothing(rules), Configure(NextSources([], urls)));
    forall i | 0 <= i < |w.sources| ensures w.sources[i].name.None? && !w.sources[i].resolved {
      NextAt([], urls, i);
    }
  }

  /** Source j, alone in answering, registers its name. */
  lemma LoneRegisters(w: World, j: nat, name: Name, doc: Doc)
    requires Settled(w) && j < |w.sources| && w.registry == map[] && Servable(w.rules, w.sources[j].url)
    requires forall i | 0 <= i < |w.sources| :: w.sources[i].name.None? && !w.sources[i].resolved
    requires doc == Doc(Some(name), true, "")
    ensures var r := After(w, Pass(Lone(|w.sources|, j, Fetched(doc, "v"))));
            && Settled(r) && SourceUrls(r) == SourceUrls(w) && Blank(r, j)
            && name in r.registry && r.registry[name].source == w.sources[j].url
  {
    hide Urls.SourceOrigin, Urls.Usable, Apply, Settled, Run;
    var outs := Lone(|w.sources|, j, Fetched(doc, "v"));
    var plan := RefreshPlan(w, j, Fetched(doc, "v"));
    QuietUpTo(w, outs, j);
    assert plan == [plan[0], plan[1], plan[2]];
    PublishKeeps(w, j, name, doc, "v");
    RunThree(w, plan[0], plan[1], plan[2]);
    QuietAfter(w, outs, j, |w.sources|);
  }

  /** A refused source before a servable one: some run shows a cassette without a document. */
  lemma UnsafeOrderBreaks(rules: Urls.Rules, urls: seq<string>, i: nat, j: nat) returns (outss: seq<seq<Outcome>>)
    requires Distinct(urls) && i < j < |urls| && Refused(rules, urls[i]) && Servable(rules, urls[j])
    ensures !AlwaysDocumented(rules, RunOf(urls, outss))
  {
    hide Urls.SourceOrigin, Urls.Usable, Apply, Settled, Run, Refresh, SetSources, PassTo, RefreshPlan, Documented;
    var name: Name := "sum";
    var doc := Doc(Some(name), true, "");
    var w1 := SetSources(Nothing(rules), urls);
    FreshCatalogue(rules, urls);
    assert SourceUrls(w1)[i] == urls[i] && SourceUrls(w1)[j] == urls[j];
    var first, second := Lone(|urls|, j, Fetched(doc, "v")), Lone(|urls|, i, Fetched(doc, "w"));
    LoneRegisters(w1, j, name, doc);
    var w2 := After(w1, Pass(first));
    assert SourceUrls(w2)[i] == urls[i] && SourceUrls(w2)[j] == urls[j];
    QuietUpTo(w2, second, i);
    Strands(w2, i, j, name, Fetched(doc, "w"));
    outss := [first, second];
    var ops := RunOf(urls, outss);
    assert ops == [SetTo(urls), Pass(first), Pass(second)];
    FirstTwo(rules, ops, w1, w2);
    StrandVisible(w2, second, i, Fetched(doc, "w"));
  }

  lemma Strands(w: World, i: nat, j: nat, name: Name, out: Outcome)
    requires Settled(w) && i < j < |w.sources| && Blank(w, j) && Refused(w.rules, w.sources[i].url)
    requires name in w.registry && w.registry[name].source == w.sources[j].url
    requires out.Fetched? && out.doc.declared == Some(name) && out.doc.publishable
    ensures !Documented(Refresh(w, i, out))
  {
    hide Urls.SourceOrigin, Urls.Usable, Refresh;
    IndexOfFinds(w.sources, w.sources[j].url, j, 0);
    DocumentedIff(w, i, out);
  }

  lemma FirstTwo(rules: Urls.Rules, ops: seq<Op>, w1: World, w2: World)
    requires |ops| == 3 && w1 == After(Nothing(rules), ops[0]) && w2 == After(w1, ops[1])
    ensures AfterAll(rules, ops[..2]) == w2
  {
    hide After;
    assert ops[..2][..1] == ops[..1] && ops[..1][..0] == [];
    assert AfterAll(rules, ops[..1]) == w1;
  }

  lemma StrandVisible(w: World, outs: seq<Outcome>, i: nat, out: Outcome)
    requires i < |w.sources| && PassTo(w, outs, i) == w && OutcomeAt(outs, i) == out
    ensures Visible(w, Pass(outs), Refresh(w, i, out))
  {
    hide RefreshPlan, Run;
    var plan := RefreshPlan(w, i, out);
    assert plan[..|plan|] == plan;
    assert MidRefresh(w, i, out, Refresh(w, i, out));
  }

  /** A configured catalogue keeps every promise in every run exactly when no source the
      registry refuses stands before one it serves. */
  lemma CatalogueSafeIff(rules: Urls.Rules, urls: seq<string>)
    requires Distinct(urls)
    ensures SafeOrder(rules, urls) <==> forall outss: seq<seq<Outcome>> :: AlwaysDocumented(rules, RunOf(urls, outss))
  {
    hide AlwaysDocumented, Refused, Servable;
    if SafeOrder(rules, urls) {
      forall outss: seq<seq<Outcome>> ensures AlwaysDocumented(rules, RunOf(urls, outss)) {
        RunsStaySafe(rules, RunOf(urls, outss));
      }
    } else {
      var i, j :| 0 <= i < j < |urls| && Refused(rules, urls[i]) && Servable(rules, urls[j]);
      var outss := UnsafeOrderBreaks(rules, urls, i, j);
    }
  }

  // ---------------------------------------------------------------- the roll-back

  /** Two sources declare one name. The later one is registered; the earlier one's origin
      loses its escape and is refused by the registry, and rolling its document back takes
      the registered cassette's document with it. */
  lemma RollbackCanStrand(rules: Urls.Rules)
    ensures exists w: World, out ::
              w.rules == rules && Settled(w) && |w.sources| == 2 && BadTakeover(w, 0, out) && !Documented(Refresh(w, 0, out))
  {
    hide Urls.SourceOrigin, Urls.Usable, Refresh;
    var bad, good: string := "http://a%25/", "http://b/";
    Urls.EscapedPercentBreaksOrigin(rules);
    GoodOrigin(rules);
    var name: Name := "sum";
    var doc := Doc(Some(name), true, "");
    var w := World(rules, [Source(bad, None, "", false), Source(good, Some(name), "v1", true)],
                   map[name := Instance(good, Urls.SourceOrigin(rules, good).value, doc)],
                   map[name := Entry(good, doc, false)]);
    assert Pinned(w, name, 1);
    assert IndexOf(w.sources, good, 0) == 1 by {
      assert bad[7] != good[7];
      IndexOfFinds(w.sources, good, 1, 0);
    }
    assert Settled(w) by { assert bad[7] != good[7]; }
    DocumentedIff(w, 0, Fetched(doc, "v2"));
  }

  lemma GoodOrigin(rules: Urls.Rules)
    ensures Urls.SourceOrigin(rules, "http://b/").Some? && Urls.Usable(rules, Urls.SourceOrigin(rules, "http://b/").value)
  {
    hide Urls.Parse, Urls.ParseHost, Urls.Usable, Urls.Hostname;
    assert "http://b/" == "http" + [':'] + ("//" + ("b" + "/"));
    DecodeB(rules);
    Urls.NothingEscaped();
    Urls.ParsePlain(rules, "http", "b", "/");
    Urls.PlainOriginUsable(rules, "http://b/");
  }

  lemma DecodeB(rules: Urls.Rules)
    ensures Urls.ParseHost(rules, "b") == Some("b") && Urls.Hostname("b") == "b"
  {
    assert "b"[1..] == "" && ['b'] + "" == "b";
    assert Urls.Decode("", false) == Some("");
    assert Urls.LastOf("b", ':') == -1;
  }
}
