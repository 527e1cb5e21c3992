/** The cassette fleet as a state machine: a source catalogue, a registry and a document
    cache, moved by single atomic actions so that every intermediate state can be spoken of. */
module CassetteModel {
  import opened Llm
  import Urls

  predicate LowerOrDigit(c: char) { 'a' <= c <= 'z' || '0' <= c <= '9' }

  /** ParseName: not reserved, outside Postgres's own prefix, and two to thirty-two characters
      of the pattern. */
  predicate ValidName(s: string) {
    && s != "public" && s != "tapes" && !("pg_" <= s)
    && 2 <= |s| <= 32 && 'a' <= s[0] <= 'z' && LowerOrDigit(s[|s| - 1])
    && forall i | 1 <= i < |s| - 1 :: LowerOrDigit(s[i]) || s[i] == '-'
  }

  type Name = n: string | ValidName(n) witness "cassette"

  /** A fetched OpenAPI document: the name its manifest declares if admitted, and whether
      its digest and its republication succeed. */
  datatype Doc = Doc(declared: Option<Name>, publishable: bool, body: string)

  datatype Source = Source(url: string, name: Option<Name>, etag: string, resolved: bool)

  datatype Instance = Instance(source: string, origin: string, doc: Doc)

  datatype Entry = Entry(source: string, doc: Doc, stale: bool)

  datatype World = World(rules: Urls.Rules, sources: seq<Source>, registry: map<Name, Instance>, cache: map<Name, Entry>)

  /** One conditional fetch: a failure, a 304, or a document with its validator. */
  datatype Outcome = Failed | NotModified | Fetched(doc: Doc, etag: string)

  /** One lock-protected update of one of the three parts. */
  datatype Action =
    | Configure(sources: seq<Source>)
    | Resolve(index: nat, name: Name, etag: string)
    | Publish(name: Name, entry: Entry)
    | Put(name: Name, instance: Instance)
    | Remove(name: Name, source: string)
    | Evict(name: Name)
    | EvictSource(name: Name, source: string)
    | MarkStale(name: Name, source: string)
    | MarkFresh(name: Name, source: string)

  function Apply(w: World, a: Action): World {
    match a
    case Configure(sources) => w.(sources := sources)
    case Resolve(i, name, etag) =>
      if i < |w.sources| then w.(sources := w.sources[i := w.sources[i].(name := Some(name), etag := etag, resolved := true)])
      else w
    case Publish(name, entry) => w.(cache := w.cache[name := entry])
    case Put(name, instance) => w.(registry := w.registry[name := instance])
    case Remove(name, source) =>
      if name in w.registry && w.registry[name].source == source then w.(registry := w.registry - {name}) else w
    case Evict(name) => w.(cache := w.cache - {name})
    case EvictSource(name, source) =>
      if name in w.cache && w.cache[name].source == source then w.(cache := w.cache - {name}) else w
    case MarkStale(name, source) =>
      if name in w.cache && w.cache[name].source == source then w.(cache := w.cache[name := w.cache[name].(stale := true)]) else w
    case MarkFresh(name, source) =>
      if name in w.cache && w.cache[name].source == source then w.(cache := w.cache[name := w.cache[name].(stale := false)]) else w
  }

  function Run(w: World, actions: seq<Action>): (r: World)
    ensures r.rules == w.rules
  {
    if actions == [] then w else Apply(Run(w, actions[..|actions| - 1]), actions[|actions| - 1])
  }

  /** sourceIndex */
  function IndexOf(sources: seq<Source>, url: string, i: nat): (r: int)
    requires i <= |sources|
    ensures r == -1 || (i <= r < |sources| && sources[r].url == url)
    decreases |sources| - i
  {
    if i == |sources| then -1 else if sources[i].url == url then i else IndexOf(sources, url, i + 1)
  }

  // ---------------------------------------------------------------- refreshSource

  function CurrentlyPublished(w: World, i: nat): bool
    requires i < |w.sources|
  {
    var s := w.sources[i];
    && s.resolved && s.name.Some? && s.name.value in w.registry
    && w.registry[s.name.value].source == s.url
    && s.name.value in w.cache && w.cache[s.name.value].source == s.url
  }

  /** The validator sent: none for a source whose document is not the cached one. */
  function SentEtag(w: World, i: nat): string
    requires i < |w.sources|
  {
    if w.sources[i].resolved && !CurrentlyPublished(w, i) then "" else w.sources[i].etag
  }

  /** checkPriority: may source i take the name? */
  function MayTake(w: World, i: nat, name: Name): bool
    requires i < |w.sources|
  {
    name !in w.registry || w.registry[name].source == w.sources[i].url
    || (var j := IndexOf(w.sources, w.registry[name].source, 0); j >= 0 && j >= i)
  }

  /** The document passes every check between the fetch and the publication. */
  predicate Admissible(w: World, i: nat, out: Outcome)
    requires i < |w.sources|
  {
    && Urls.SourceOrigin(w.rules, w.sources[i].url).Some?
    && out.Fetched? && out.doc.declared.Some? && out.doc.publishable
    && (w.sources[i].resolved ==> w.sources[i].name == out.doc.declared)
    && MayTake(w, i, out.doc.declared.value)
  }

  function FailPlan(s: Source): seq<Action> {
    if s.name.Some? then [MarkStale(s.name.value, s.url)] else []
  }

  /** The atomic actions one refreshSource performs, in order. */
  function RefreshPlan(w: World, i: nat, out: Outcome): seq<Action>
    requires i < |w.sources|
  {
    var s := w.sources[i];
    if Urls.SourceOrigin(w.rules, s.url).None? then FailPlan(s)
    else if out.NotModified? && CurrentlyPublished(w, i) then [MarkFresh(s.name.value, s.url)]
    else if !Admissible(w, i, out) then FailPlan(s)
    else
      var name := out.doc.declared.value;
      var origin := Urls.SourceOrigin(w.rules, s.url).value;
      var publish := Publish(name, Entry(s.url, out.doc, false));
      if Urls.Usable(w.rules, origin) then [publish, Put(name, Instance(s.url, origin, out.doc)), Resolve(i, name, out.etag)]
      else [publish, Evict(name)] + FailPlan(s)
  }

  function Refresh(w: World, i: nat, out: Outcome): (r: World)
    requires i < |w.sources|
    ensures |r.sources| == |w.sources| && r.rules == w.rules
  {
    hide Urls.SourceOrigin, Urls.Usable, Admissible, CurrentlyPublished, Run;
    KeepsLength(w, RefreshPlan(w, i, out));
    Run(w, RefreshPlan(w, i, out))
  }

  lemma {:induction false} KeepsLength(w: World, actions: seq<Action>)
    requires forall a | a in actions :: !a.Configure?
    ensures |Run(w, actions).sources| == |w.sources|
  {
    if actions != [] { KeepsLength(w, actions[..|actions| - 1]); }
  }

  // ---------------------------------------------------------------- SetSources

  /** The first previous state with this URL, else a blank one. With distinct URLs the
      retained flags never decide. */
  function Retain(previous: seq<Source>, url: string): Source {
    var j := IndexOf(previous, url, 0);
    if j >= 0 then previous[j] else Source(url, None, "", false)
  }

  function NextSources(previous: seq<Source>, urls: seq<string>): seq<Source> {
    seq(|urls|, i requires 0 <= i < |urls| => Retain(previous, urls[i]))
  }

  function WithdrawPlan(previous: seq<Source>, urls: seq<string>, i: nat): seq<Action>
    requires i <= |previous|
    decreases |previous| - i
  {
    if i == |previous| then []
    else
      var s := previous[i];
      (if s.url !in urls && s.name.Some? then [Remove(s.name.value, s.url), EvictSource(s.name.value, s.url)] else [])
      + WithdrawPlan(previous, urls, i + 1)
  }

  function SetPlan(w: World, urls: seq<string>): seq<Action> {
    [Configure(NextSources(w.sources, urls))] + WithdrawPlan(w.sources, urls, 0)
  }

  function SetSources(w: World, urls: seq<string>): (r: World)
    ensures r.rules == w.rules
  {
    Run(w, SetPlan(w, urls))
  }

  // ---------------------------------------------------------------- invariants

  /** What a reader relies on at every instant: a visible cassette has a document. */
  ghost predicate Documented(w: World) {
    forall n | n in w.registry :: n in w.cache
  }

  ghost predicate Distinct(urls: seq<string>) {
    forall i, j | 0 <= i < j < |urls| :: urls[i] != urls[j]
  }

  ghost function SourceUrls(w: World): seq<string> {
    seq(|w.sources|, i requires 0 <= i < |w.sources| => w.sources[i].url)
  }

  ghost predicate Pinned(w: World, n: Name, i: int) {
    0 <= i < |w.sources| && w.sources[i].resolved && w.sources[i].name == Some(n)
    && n in w.registry && w.sources[i].url == w.registry[n].source
  }

  /** A registered cassette's document and instance come from the same source, and that
      source is configured and pinned to the name. */
  ghost predicate Owned(w: World, n: Name)
    requires n in w.registry
  {
    && n in w.cache && w.cache[n].source == w.registry[n].source && w.cache[n].doc == w.registry[n].doc
    && Urls.SourceOrigin(w.rules, w.registry[n].source) == Some(w.registry[n].origin)
    && Urls.Usable(w.rules, w.registry[n].origin)
    && exists i :: Pinned(w, n, i)
  }

  /** A source has a name from its first admission on, and no validator before it. */
  ghost predicate Coherent(s: Source) {
    (s.resolved <==> s.name.Some?) && (!s.resolved ==> s.etag == "")
  }

  /** What holds between operations. */
  ghost predicate Settled(w: World) {
    && (forall i, j | 0 <= i < j < |w.sources| :: w.sources[i].url != w.sources[j].url)
    && (forall i | 0 <= i < |w.sources| :: Coherent(w.sources[i]))
    && (forall n | n in w.registry :: Owned(w, n))
  }

  // ---------------------------------------------------------------- runs of actions

  lemma RunOne(w: World, a: Action)
    ensures Run(w, [a]) == Apply(w, a)
  {
    assert [a][..0] == [];
  }

  lemma {:induction false} RunConcat(w: World, a: seq<Action>, b: seq<Action>)
    ensures Run(w, a + b) == Run(Run(w, a), b)
  {
    hide Apply;
    if b == [] {
      assert a + b == a;
    } else {
      var n := |b| - 1;
      assert (a + b)[..|a| + n] == a + b[..n];
      RunConcat(w, a, b[..n]);
    }
  }

  lemma RunThree(w: World, a: Action, b: Action, c: Action)
    ensures Run(w, [a, b]) == Apply(Apply(w, a), b)
    ensures Run(w, [a, b, c]) == Apply(Apply(Apply(w, a), b), c)
  {
    hide Apply, Run;
    assert [a, b] == [a] + [b] && [a, b, c] == [a, b] + [c];
    RunConcat(w, [a], [b]);
    RunConcat(w, [a, b], [c]);
    RunOne(w, a);
    RunOne(Apply(w, a), b);
    RunOne(Apply(Apply(w, a), b), c);
  }

  lemma IndexOfFinds(sources: seq<Source>, url: string, k: nat, i: nat)
    requires i <= k < |sources| && sources[k].url == url
    requires forall a, b | 0 <= a < b < |sources| :: sources[a].url != sources[b].url
    ensures IndexOf(sources, url, i) == k
    decreases |sources| - i
  {
    if sources[i].url != url { IndexOfFinds(sources, url, k, i + 1); }
  }

  lemma IndexOfMisses(sources: seq<Source>, url: string, i: nat)
    requires i <= |sources| && forall k | i <= k < |sources| :: sources[k].url != url
    ensures IndexOf(sources, url, i) == -1
    decreases |sources| - i
  {
  }

  // ---------------------------------------------------------------- one refresh

  /** The one way a refresh can break the reader's promise: a source whose origin is not a
      usable target takes over a name that is registered. */
  predicate BadTakeover(w: World, i: nat, out: Outcome)
    requires i < |w.sources|
  {
    && Admissible(w, i, out)
    && !(out.NotModified? && CurrentlyPublished(w, i))
    && !Urls.Usable(w.rules, Urls.SourceOrigin(w.rules, w.sources[i].url).value)
    && out.doc.declared.value in w.registry
  }

  lemma MarkKeeps(w: World, a: Action)
    requires Settled(w) && (a.MarkStale? || a.MarkFresh?)
    ensures Settled(Apply(w, a)) && Apply(w, a).registry == w.registry && Apply(w, a).sources == w.sources
    ensures Apply(w, a).cache.Keys == w.cache.Keys
  {
    hide Urls.SourceOrigin, Urls.Usable, ValidName;
    var v := Apply(w, a);
    forall n | n in v.registry ensures Owned(v, n) {
      assert Owned(w, n);
      var i :| Pinned(w, n, i);
      assert Pinned(v, n, i);
    }
  }

  lemma FailKeeps(w: World, s: Source, k: nat)
    requires Settled(w) && k <= |FailPlan(s)|
    ensures Settled(Run(w, FailPlan(s)[..k]))
    ensures Run(w, FailPlan(s)[..k]).registry == w.registry && Run(w, FailPlan(s)[..k]).sources == w.sources
  {
    if k == 1 {
      MarkKeeps(w, FailPlan(s)[0]);
      assert FailPlan(s)[..1] == [FailPlan(s)[0]];
      RunOne(w, FailPlan(s)[0]);
    }
  }

  /** The state after a successful publication: the name belongs to source i now. */
  lemma PublishKeeps(w: World, i: nat, name: Name, doc: Doc, etag: string)
    requires Settled(w) && i < |w.sources|
    requires w.sources[i].resolved ==> w.sources[i].name == Some(name)
    requires Urls.SourceOrigin(w.rules, w.sources[i].url).Some? && Urls.Usable(w.rules, Urls.SourceOrigin(w.rules, w.sources[i].url).value)
    ensures var s := w.sources[i];
            var p := Apply(w, Publish(name, Entry(s.url, doc, false)));
            var q := Apply(p, Put(name, Instance(s.url, Urls.SourceOrigin(w.rules, s.url).value, doc)));
            var r := Apply(q, Resolve(i, name, etag));
            && Documented(p) && Documented(q) && Settled(r)
            && name in r.registry && r.registry[name].source == s.url
            && (forall n | n != name :: n in r.registry <==> n in w.registry)
            && (forall n | n != name && n in w.registry :: r.registry[n] == w.registry[n])
            && |r.sources| == |w.sources| && (forall k | 0 <= k < |w.sources| :: r.sources[k].url == w.sources[k].url)
            && (forall k | 0 <= k < |w.sources| && k != i :: r.sources[k] == w.sources[k])
            && r.sources[i].name == Some(name)
  {
    hide Urls.SourceOrigin, Urls.Usable, ValidName;
    var s := w.sources[i];
    var p := Apply(w, Publish(name, Entry(s.url, doc, false)));
    var q := Apply(p, Put(name, Instance(s.url, Urls.SourceOrigin(w.rules, s.url).value, doc)));
    var r := Apply(q, Resolve(i, name, etag));
    forall n | n in w.registry ensures n in w.cache {
      assert Owned(w, n);
    }
    forall n | n in r.registry ensures Owned(r, n) {
      if n == name {
        assert Pinned(r, n, i);
      } else {
        assert Owned(w, n);
        var k :| Pinned(w, n, k);
        assert Pinned(r, n, k);
      }
    }
  }

  /** The state after the roll-back: settled if the name was nobody's, and otherwise a
      visible cassette has lost its document. */
  lemma RollbackEffect(w: World, i: nat, name: Name, doc: Doc)
    requires Settled(w) && i < |w.sources|
    ensures var s := w.sources[i];
            var p := Apply(w, Publish(name, Entry(s.url, doc, false)));
            var q := Apply(p, Evict(name));
            && Documented(p)
            && (name !in w.registry ==> Settled(q))
            && (name in w.registry ==> !Documented(q))
            && q.registry == w.registry && q.sources == w.sources
  {
    hide Urls.SourceOrigin, Urls.Usable, ValidName;
    var p := Apply(w, Publish(name, Entry(w.sources[i].url, doc, false)));
    var q := Apply(p, Evict(name));
    forall n | n in w.registry ensures n in w.cache {
      assert Owned(w, n);
    }
    if name !in w.registry {
      forall n | n in q.registry ensures Owned(q, n) {
        assert Owned(w, n);
        var k :| Pinned(w, n, k);
        assert Pinned(q, n, k);
      }
    }
  }

  lemma SettledIsDocumented(w: World)
    requires Settled(w)
    ensures Documented(w)
  {
    forall n | n in w.registry ensures n in w.cache { assert Owned(w, n); }
  }

  /** A refresh with any outcome: unless it is a bad takeover, every intermediate state is
      documented and the final one settled. */
  lemma RefreshKeeps(w: World, i: nat, out: Outcome, k: nat)
    requires Settled(w) && i < |w.sources| && k <= |RefreshPlan(w, i, out)|
    requires !BadTakeover(w, i, out)
    ensures Documented(Run(w, RefreshPlan(w, i, out)[..k]))
    ensures Settled(Refresh(w, i, out))
    ensures SourceUrls(Refresh(w, i, out)) == SourceUrls(w)
  {
    hide Urls.SourceOrigin, Urls.Usable, Apply, Settled, Documented, CurrentlyPublished, MayTake, ValidName;
    var s := w.sources[i];
    var plan := RefreshPlan(w, i, out);
    SettledIsDocumented(w);
    assert plan[..|plan|] == plan && plan[..0] == [];
    if Urls.SourceOrigin(w.rules, s.url).None? || (!(out.NotModified? && CurrentlyPublished(w, i)) && !Admissible(w, i, out)) {
      FailKeeps(w, s, k);
      FailKeeps(w, s, |plan|);
      SettledIsDocumented(Run(w, plan[..k]));
    } else if out.NotModified? && CurrentlyPublished(w, i) {
      MarkKeeps(w, plan[0]);
      RunOne(w, plan[0]);
      SettledIsDocumented(Apply(w, plan[0]));
      if k == 1 { assert plan[..1] == plan; }
    } else {
      var name := out.doc.declared.value;
      if Urls.Usable(w.rules, Urls.SourceOrigin(w.rules, s.url).value) {
        PublishKeeps(w, i, name, out.doc, out.etag);
        RunThree(w, plan[0], plan[1], plan[2]);
        RunOne(w, plan[0]);
        assert plan[..1] == [plan[0]] && plan[..2] == [plan[0], plan[1]];
        assert plan == [plan[0], plan[1], plan[2]];
        SettledIsDocumented(Refresh(w, i, out));
      } else {
        RollbackKeeps(w, i, out, k);
      }
    }
  }

  lemma RollbackKeeps(w: World, i: nat, out: Outcome, k: nat)
    requires Settled(w) && i < |w.sources| && k <= |RefreshPlan(w, i, out)|
    requires Admissible(w, i, out) && !Urls.Usable(w.rules, Urls.SourceOrigin(w.rules, w.sources[i].url).value)
    requires !(out.NotModified? && CurrentlyPublished(w, i)) && out.doc.declared.value !in w.registry
    ensures Documented(Run(w, RefreshPlan(w, i, out)[..k]))
    ensures Settled(Refresh(w, i, out))
    ensures SourceUrls(Refresh(w, i, out)) == SourceUrls(w)
  {
    hide Urls.SourceOrigin, Urls.Usable, Apply, Settled, Documented, CurrentlyPublished, MayTake, ValidName;
    var s, name := w.sources[i], out.doc.declared.value;
    var plan := RefreshPlan(w, i, out);
    var head := [plan[0], plan[1]];
    assert plan == head + FailPlan(s) && plan[..|plan|] == plan;
    SettledIsDocumented(w);
    RollbackEffect(w, i, name, out.doc);
    RunThree(w, plan[0], plan[1], plan[1]);
    RunOne(w, plan[0]);
    var q := Run(w, head);
    RunConcat(w, head, FailPlan(s));
    FailKeeps(q, s, |FailPlan(s)|);
    assert FailPlan(s)[..|FailPlan(s)|] == FailPlan(s);
    if k < 2 {
      assert plan[..k] == head[..k];
      assert head[..0] == [] && head[..1] == [plan[0]];
    } else {
      assert plan[..k] == head + FailPlan(s)[..k - 2];
      RunConcat(w, head, FailPlan(s)[..k - 2]);
      FailKeeps(q, s, k - 2);
      SettledIsDocumented(Run(w, plan[..k]));
    }
  }

  /** Exactly when the reader's promise survives a refresh. */
  lemma DocumentedIff(w: World, i: nat, out: Outcome)
    requires Settled(w) && i < |w.sources|
    ensures Documented(Refresh(w, i, out)) <==> !BadTakeover(w, i, out)
  {
    hide Urls.SourceOrigin, Urls.Usable, Apply, Settled, CurrentlyPublished, MayTake, ValidName;
    if BadTakeover(w, i, out) {
      var s, name := w.sources[i], out.doc.declared.value;
      var plan := RefreshPlan(w, i, out);
      assert plan == [plan[0], plan[1]] + FailPlan(s);
      RollbackEffect(w, i, name, out.doc);
      RunThree(w, plan[0], plan[1], plan[1]);
      RunConcat(w, [plan[0], plan[1]], FailPlan(s));
      var q := Run(w, [plan[0], plan[1]]);
      if s.name.Some? {
        RunOne(q, FailPlan(s)[0]);
        MarkKeepsKeys(q, s.name.value, s.url);
      }
    } else {
      RefreshKeeps(w, i, out, |RefreshPlan(w, i, out)|);
      SettledIsDocumented(Refresh(w, i, out));
    }
  }

  lemma MarkKeepsKeys(w: World, name: Name, url: string)
    ensures Apply(w, MarkStale(name, url)).registry == w.registry
    ensures Apply(w, MarkStale(name, url)).cache.Keys == w.cache.Keys
  {
  }

  /** A source the registry can serve, and one sourceOrigin accepts and the registry refuses. */
  predicate Servable(rules: Urls.Rules, url: string) {
    Urls.SourceOrigin(rules, url).Some? && Urls.Usable(rules, Urls.SourceOrigin(rules, url).value)
  }

  predicate Refused(rules: Urls.Rules, url: string) {
    Urls.SourceOrigin(rules, url).Some? && !Urls.Usable(rules, Urls.SourceOrigin(rules, url).value)
  }

  /** No refused source stands before a servable one. */
  ghost predicate SafeOrder(rules: Urls.Rules, urls: seq<string>) {
    forall i, j | 0 <= i < j < |urls| && Refused(rules, urls[i]) :: !Servable(rules, urls[j])
  }

  /** In such a catalogue no refresh is a bad takeover: only a servable source owns a name,
      and a refused one yields to every earlier owner. */
  lemma SafeOrderNeverBad(w: World, i: nat, out: Outcome)
    requires Settled(w) && SafeOrder(w.rules, SourceUrls(w)) && i < |w.sources|
    ensures !BadTakeover(w, i, out)
  {
    hide Urls.SourceOrigin, Urls.Usable, CurrentlyPublished, SafeOrder;
    if BadTakeover(w, i, out) {
      var n := out.doc.declared.value;
      assert Owned(w, n);
      var m :| Pinned(w, n, m);
      IndexOfFinds(w.sources, w.registry[n].source, m, 0);
      NoneLater(w.rules, SourceUrls(w), i, m);
    }
  }

  lemma NoneLater(rules: Urls.Rules, urls: seq<string>, i: nat, m: nat)
    requires SafeOrder(rules, urls) && i < |urls| && m < |urls| && Refused(rules, urls[i]) && Servable(rules, urls[m])
    ensures m < i
  {
    hide Urls.SourceOrigin, Urls.Usable;
  }

  /** In particular a catalogue without escapes in its URLs. */
  lemma PlainIsSafe(rules: Urls.Rules, urls: seq<string>)
    requires forall u | u in urls :: '%' !in u
    ensures SafeOrder(rules, urls)
  {
    hide Urls.SourceOrigin, Urls.Usable;
    forall i | 0 <= i < |urls| ensures !Refused(rules, urls[i]) {
      assert urls[i] in urls;
      if Urls.SourceOrigin(rules, urls[i]).Some? { Urls.PlainOriginUsable(rules, urls[i]); }
    }
  }

  // ---------------------------------------------------------------- SetSources

  lemma NextAt(previous: seq<Source>, urls: seq<string>, k: nat)
    requires k < |urls|
    requires forall a, b | 0 <= a < b < |previous| :: previous[a].url != previous[b].url
    ensures NextSources(previous, urls)[k].url == urls[k]
    ensures forall i | 0 <= i < |previous| && previous[i].url == urls[k] :: NextSources(previous, urls)[k] == previous[i]
    ensures (forall i | 0 <= i < |previous| :: previous[i].url != urls[k]) ==>
              NextSources(previous, urls)[k] == Source(urls[k], None, "", false)
  {
    forall i | 0 <= i < |previous| && previous[i].url == urls[k] ensures NextSources(previous, urls)[k] == previous[i] {
      IndexOfFinds(previous, urls[k], i, 0);
    }
    if forall i | 0 <= i < |previous| :: previous[i].url != urls[k] {
      IndexOfMisses(previous, urls[k], 0);
    }
  }

  /** Withdrawing the dropped sources from i on touches exactly the names they own, in an
      order that never shows a cassette without its document. */
  ghost predicate Dropped(previous: seq<Source>, urls: seq<string>, i: nat, n: Name, url: string) {
    exists k :: i <= k < |previous| && previous[k].url == url && url !in urls && previous[k].name == Some(n)
  }

  lemma {:induction false} WithdrawEffect(w: World, previous: seq<Source>, urls: seq<string>, i: nat, n: Name)
    requires i <= |previous|
    requires forall m | m in w.registry && m in w.cache :: w.cache[m].source == w.registry[m].source
    requires Documented(w)
    ensures var v := Run(w, WithdrawPlan(previous, urls, i));
            && v.sources == w.sources && Documented(v)
            && (forall m | m in v.registry && m in v.cache :: v.cache[m].source == v.registry[m].source)
            && (n in v.registry <==> n in w.registry && !Dropped(previous, urls, i, n, w.registry[n].source))
            && (n in v.registry ==> v.registry[n] == w.registry[n] && n in w.cache && n in v.cache && v.cache[n] == w.cache[n])
    decreases |previous| - i
  {
    hide Run, ValidName;
    if i == |previous| {
      RunNone(w);
    } else {
      var s := previous[i];
      var rest := WithdrawPlan(previous, urls, i + 1);
      if s.url !in urls && s.name.Some? {
        var a, b := Remove(s.name.value, s.url), EvictSource(s.name.value, s.url);
        RunConcat(w, [a, b], rest);
        RunThree(w, a, b, b);
        WithdrawEffect(Apply(Apply(w, a), b), previous, urls, i + 1, n);
      } else {
        assert WithdrawPlan(previous, urls, i) == rest;
        WithdrawEffect(w, previous, urls, i + 1, n);
      }
    }
  }

  lemma RunNone(w: World)
    ensures Run(w, []) == w
  {
  }

  lemma {:induction false} WithdrawDocumented(w: World, previous: seq<Source>, urls: seq<string>, i: nat, k: nat)
    requires i <= |previous| && k <= |WithdrawPlan(previous, urls, i)|
    requires forall m | m in w.registry && m in w.cache :: w.cache[m].source == w.registry[m].source
    requires Documented(w)
    ensures Documented(Run(w, WithdrawPlan(previous, urls, i)[..k]))
    decreases |previous| - i
  {
    hide Run, ValidName;
    if i == |previous| {
      RunNone(w);
      assert WithdrawPlan(previous, urls, i)[..k] == [];
    } else {
      var s := previous[i];
      var rest := WithdrawPlan(previous, urls, i + 1);
      if s.url !in urls && s.name.Some? {
        var a, b := Remove(s.name.value, s.url), EvictSource(s.name.value, s.url);
        var plan := [a, b] + rest;
        assert WithdrawPlan(previous, urls, i) == plan;
        RunThree(w, a, b, b);
        RunOne(w, a);
        RunNone(w);
        if k < 2 {
          assert plan[..k] == [a, b][..k];
          assert [a, b][..0] == [] && [a, b][..1] == [a];
        } else {
          assert plan[..k] == [a, b] + rest[..k - 2];
          RunConcat(w, [a, b], rest[..k - 2]);
          WithdrawDocumented(Apply(Apply(w, a), b), previous, urls, i + 1, k - 2);
        }
      } else {
        assert WithdrawPlan(previous, urls, i) == rest;
        WithdrawDocumented(w, previous, urls, i + 1, k);
      }
    }
  }

  lemma SettledSources(w: World)
    requires Settled(w)
    ensures forall m | m in w.registry && m in w.cache :: w.cache[m].source == w.registry[m].source
  {
    forall m | m in w.registry && m in w.cache ensures w.cache[m].source == w.registry[m].source {
      assert Owned(w, m);
    }
  }

  /** Replacing the catalogue: documented throughout, settled at the end, and a name stays
      registered exactly when its owner is still configured. */
  lemma SetSourcesKeeps(w: World, urls: seq<string>, k: nat)
    requires Settled(w) && Distinct(urls) && k <= |SetPlan(w, urls)|
    ensures Documented(Run(w, SetPlan(w, urls)[..k]))
    ensures Settled(SetSources(w, urls)) && SourceUrls(SetSources(w, urls)) == urls
    ensures forall n :: n in SetSources(w, urls).registry <==> n in w.registry && w.registry[n].source in urls
    ensures forall n | n in SetSources(w, urls).registry :: SetSources(w, urls).registry[n] == w.registry[n]
  {
    hide Urls.SourceOrigin, Urls.Usable, Run, Settled, NextSources, WithdrawPlan;
    var configure := Configure(NextSources(w.sources, urls));
    var rest := WithdrawPlan(w.sources, urls, 0);
    var c := Apply(w, configure);
    RunOne(w, configure);
    RunNone(w);
    RunConcat(w, [configure], rest);
    SettledIsDocumented(w);
    SettledSources(w);
    if k == 0 {
      assert SetPlan(w, urls)[..k] == [];
    } else {
      assert SetPlan(w, urls)[..k] == [configure] + rest[..k - 1];
      RunConcat(w, [configure], rest[..k - 1]);
      WithdrawDocumented(c, w.sources, urls, 0, k - 1);
    }
    var v := Run(c, rest);
    forall n: Name ensures (n in v.registry <==> n in w.registry && w.registry[n].source in urls)
                           && (n in v.registry ==> v.registry[n] == w.registry[n] && n in v.cache && v.cache[n] == w.cache[n])
    {
      WithdrawEffect(c, w.sources, urls, 0, n);
      if n in w.registry { OwnerDropped(w, urls, n); }
    }
    assert v.sources == NextSources(w.sources, urls) by {
      var n: Name := "cassette";
      WithdrawEffect(c, w.sources, urls, 0, n);
    }
    SetSettled(w, urls, v);
  }

  lemma OwnerDropped(w: World, urls: seq<string>, n: Name)
    requires Settled(w) && n in w.registry
    ensures Dropped(w.sources, urls, 0, n, w.registry[n].source) <==> w.registry[n].source !in urls
  {
    assert Owned(w, n);
    var i :| Pinned(w, n, i);
  }

  lemma SetSettled(w: World, urls: seq<string>, v: World)
    requires Settled(w) && Distinct(urls) && v.sources == NextSources(w.sources, urls)
    requires v.rules == w.rules && forall n | n in v.registry :: n in w.registry && w.registry[n].source in urls
    requires forall n | n in v.registry :: v.registry[n] == w.registry[n] && n in v.cache && n in w.cache && v.cache[n] == w.cache[n]
    ensures Settled(v) && SourceUrls(v) == urls
  {
    hide Urls.SourceOrigin, Urls.Usable, ValidName;
    forall k | 0 <= k < |urls| ensures v.sources[k].url == urls[k] && Coherent(v.sources[k]) {
      NextAt(w.sources, urls, k);
    }
    forall n | n in v.registry ensures Owned(v, n) {
      assert Owned(w, n);
      var i :| Pinned(w, n, i);
      var k :| 0 <= k < |urls| && urls[k] == w.registry[n].source;
      NextAt(w.sources, urls, k);
      assert Pinned(v, n, k);
    }
  }
}
