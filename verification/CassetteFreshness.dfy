/** The whole effect of one refresh, read off the source, the answer and the fleet as they
    were: what is registered, which document is served, and which is stale. */
module CassetteFreshness {
  import opened Llm
  import opened CassetteModel
  import Urls

  /** Some source configured before i owns the name. */
  ghost predicate OwnedEarlier(w: World, i: nat, name: Name)
    requires i < |w.sources|
  {
    name in w.registry && exists j :: 0 <= j < i && w.sources[j].url == w.registry[name].source
  }

  /** The answer is a document of source i's that may be published. */
  ghost predicate Admitted(w: World, i: nat, out: Outcome)
    requires i < |w.sources|
  {
    var s := w.sources[i];
    && Urls.SourceOrigin(w.rules, s.url).Some?
    && out.Fetched? && out.doc.declared.Some? && out.doc.publishable
    && (s.resolved ==> s.name == out.doc.declared)
    && !OwnedEarlier(w, i, out.doc.declared.value)
  }

  ghost predicate Published(w: World, i: nat, out: Outcome)
    requires i < |w.sources|
  {
    Admitted(w, i, out) && Servable(w.rules, w.sources[i].url)
  }

  /** Published and taken back, for the registry refuses the origin. */
  ghost predicate RolledBack(w: World, i: nat, out: Outcome)
    requires i < |w.sources|
  {
    Admitted(w, i, out) && !Servable(w.rules, w.sources[i].url)
  }

  /** A 304 for a document that is source i's own and served. */
  ghost predicate Confirmed(w: World, i: nat, out: Outcome)
    requires i < |w.sources|
  {
    var s := w.sources[i];
    && Urls.SourceOrigin(w.rules, s.url).Some? && out.NotModified? && s.resolved && s.name.Some?
    && s.name.value in w.registry && w.registry[s.name.value].source == s.url
    && s.name.value in w.cache && w.cache[s.name.value].source == s.url
  }

  /** The cache with source s's own document, if it holds one, marked. */
  ghost function Marked(cache: map<Name, Entry>, s: Source, stale: bool): map<Name, Entry> {
    if s.name.Some? && s.name.value in cache && cache[s.name.value].source == s.url
    then cache[s.name.value := cache[s.name.value].(stale := stale)]
    else cache
  }

  /** What a refresh leaves, from any fleet between operations. */
  ghost predicate Refreshed(w: World, i: nat, out: Outcome, r: World)
    requires i < |w.sources|
  {
    var s := w.sources[i];
    r.rules == w.rules
    && if Published(w, i, out) then
         var name := out.doc.declared.value;
         && r.sources == w.sources[i := Source(s.url, Some(name), out.etag, true)]
         && r.registry == w.registry[name := Instance(s.url, Urls.SourceOrigin(w.rules, s.url).value, out.doc)]
         && r.cache == w.cache[name := Entry(s.url, out.doc, false)]
       else
         && r.sources == w.sources && r.registry == w.registry
         && r.cache == if RolledBack(w, i, out) then Marked(w.cache - {out.doc.declared.value}, s, true)
                       else Marked(w.cache, s, !Confirmed(w, i, out))
  }

  lemma PriorityMeans(w: World, i: nat, name: Name)
    requires Settled(w) && i < |w.sources|
    ensures MayTake(w, i, name) <==> !OwnedEarlier(w, i, name)
  {
    hide Urls.SourceOrigin, Urls.Usable, ValidName;
    if name in w.registry {
      assert Owned(w, name);
      var m :| Pinned(w, name, m);
      IndexOfFinds(w.sources, w.registry[name].source, m, 0);
    }
  }

  lemma AdmittedMeans(w: World, i: nat, out: Outcome)
    requires Settled(w) && i < |w.sources|
    ensures Admissible(w, i, out) <==> Admitted(w, i, out)
  {
    hide Urls.SourceOrigin, Settled, MayTake, OwnedEarlier;
    if out.Fetched? && out.doc.declared.Some? { PriorityMeans(w, i, out.doc.declared.value); }
  }

  lemma MarkMeans(w: World, s: Source, stale: bool)
    requires s.name.Some?
    ensures var a := if stale then MarkStale(s.name.value, s.url) else MarkFresh(s.name.value, s.url);
            Run(w, [a]) == w.(cache := Marked(w.cache, s, stale))
  {
    RunOne(w, if stale then MarkStale(s.name.value, s.url) else MarkFresh(s.name.value, s.url));
  }

  lemma FailMeans(w: World, s: Source)
    ensures Run(w, FailPlan(s)) == w.(cache := Marked(w.cache, s, true))
  {
    if s.name.Some? {
      MarkMeans(w, s, true);
      assert FailPlan(s) == [MarkStale(s.name.value, s.url)];
    } else {
      RunNone(w);
    }
  }

  lemma PublishMeans(w: World, i: nat, name: Name, entry: Entry, instance: Instance, etag: string)
    requires i < |w.sources|
    ensures Run(w, [Publish(name, entry), Put(name, instance), Resolve(i, name, etag)])
         == w.(cache := w.cache[name := entry], registry := w.registry[name := instance],
               sources := w.sources[i := w.sources[i].(name := Some(name), etag := etag, resolved := true)])
  {
    hide Run, ValidName, Urls.SourceOrigin;
    RunThree(w, Publish(name, entry), Put(name, instance), Resolve(i, name, etag));
  }

  lemma RollbackMeans(w: World, s: Source, name: Name, entry: Entry)
    ensures Run(w, [Publish(name, entry), Evict(name)] + FailPlan(s)) == w.(cache := Marked(w.cache - {name}, s, true))
  {
    hide FailPlan, Marked;
    RunThree(w, Publish(name, entry), Evict(name), Evict(name));
    RunConcat(w, [Publish(name, entry), Evict(name)], FailPlan(s));
    assert w.cache[name := entry] - {name} == w.cache - {name};
    FailMeans(Run(w, [Publish(name, entry), Evict(name)]), s);
  }

  /** The new state of every refresh, whatever the answer. */
  lemma RefreshMeans(w: World, i: nat, out: Outcome)
    requires Settled(w) && i < |w.sources|
    ensures Refreshed(w, i, out, Refresh(w, i, out))
  {
    hide Urls.SourceOrigin, Urls.Usable, Settled, FailPlan, Run, Admissible, OwnedEarlier;
    AdmittedMeans(w, i, out);
    var s := w.sources[i];
    FailMeans(w, s);
    if Confirmed(w, i, out) {
      MarkMeans(w, s, false);
    } else if Admitted(w, i, out) {
      var name := out.doc.declared.value;
      var entry := Entry(s.url, out.doc, false);
      if Servable(w.rules, s.url) {
        PublishMeans(w, i, name, entry, Instance(s.url, Urls.SourceOrigin(w.rules, s.url).value, out.doc), out.etag);
      } else {
        RollbackMeans(w, s, name, entry);
      }
    }
  }

  /** A failing source's document goes stale and stays; an answered one's is fresh; and no
      other source's document changes, save where its name is published or rolled back. */
  lemma StaleExactlyWhenFailing(w: World, i: nat, out: Outcome, n: Name)
    requires Settled(w) && i < |w.sources| && n in w.cache
    ensures var s, r, e := w.sources[i], Refresh(w, i, out), w.cache[n];
            var named := Admitted(w, i, out) && out.doc.declared.value == n;
            && (!named && !(s.name == Some(n) && e.source == s.url) ==> n in r.cache && r.cache[n] == e)
            && (!named && s.name == Some(n) && e.source == s.url ==>
                  n in r.cache && r.cache[n] == e.(stale := !Confirmed(w, i, out)))
            && (named && Published(w, i, out) ==> n in r.cache && r.cache[n] == Entry(s.url, out.doc, false))
            && (named && RolledBack(w, i, out) ==> n !in r.cache)
  {
    hide Urls.SourceOrigin, Settled, OwnedEarlier, Servable, Refresh;
    RefreshMeans(w, i, out);
    AdmittedName(w, i, out);
  }

  /** A source that has a name publishes under no other. */
  lemma AdmittedName(w: World, i: nat, out: Outcome)
    requires Settled(w) && i < |w.sources|
    ensures Admitted(w, i, out) && w.sources[i].name.Some? ==> w.sources[i].name == out.doc.declared
  {
    hide Urls.SourceOrigin, OwnedEarlier;
    assert Coherent(w.sources[i]);
  }

  // ---------------------------------------------------------------- a new catalogue

  /** What replacing the catalogue leaves: a retained URL keeps its state and a new one starts
      blank; instances and documents go exactly with the sources that own them. */
  ghost predicate Replaced(w: World, urls: seq<string>, r: World) {
    && r.rules == w.rules && |r.sources| == |urls|
    && (forall k, j | 0 <= k < |urls| && 0 <= j < |w.sources| && w.sources[j].url == urls[k] :: r.sources[k] == w.sources[j])
    && (forall k | 0 <= k < |urls| && (forall j | 0 <= j < |w.sources| :: w.sources[j].url != urls[k]) ::
          r.sources[k] == Source(urls[k], None, "", false))
    && (forall n :: n in r.registry <==> n in w.registry && w.registry[n].source in urls)
    && (forall n | n in r.registry :: r.registry[n] == w.registry[n])
    && (forall n :: n in r.cache <==> n in w.cache && !Leaves(w, urls, n, w.cache[n].source))
    && (forall n | n in r.cache :: r.cache[n] == w.cache[n])
  }

  /** Some source no longer configured had the name and this URL. */
  ghost predicate Leaves(w: World, urls: seq<string>, n: Name, url: string) {
    exists j :: 0 <= j < |w.sources| && w.sources[j].url == url && w.sources[j].name == Some(n) && url !in urls
  }

  lemma {:induction false} WithdrawnDocuments(w: World, previous: seq<Source>, urls: seq<string>, i: nat, n: Name)
    requires i <= |previous|
    ensures var v := Run(w, WithdrawPlan(previous, urls, i));
            && v.sources == w.sources
            && (n in v.cache <==> n in w.cache && !Dropped(previous, urls, i, n, w.cache[n].source))
            && (n in v.cache ==> v.cache[n] == w.cache[n])
    decreases |previous| - i
  {
    hide Run, ValidName, Apply, Dropped;
    if i == |previous| {
      RunNone(w);
      NoneDropped(previous, urls, n);
    } else {
      var s := previous[i];
      var rest := WithdrawPlan(previous, urls, i + 1);
      if s.url !in urls && s.name.Some? {
        var a, b := Remove(s.name.value, s.url), EvictSource(s.name.value, s.url);
        RunConcat(w, [a, b], rest);
        RunThree(w, a, b, b);
        WithdrawnOne(w, s, n);
        WithdrawnDocuments(Apply(Apply(w, a), b), previous, urls, i + 1, n);
      } else {
        assert WithdrawPlan(previous, urls, i) == rest;
        WithdrawnDocuments(w, previous, urls, i + 1, n);
      }
      if n in w.cache { DroppedNext(previous, urls, i, n, w); }
    }
  }

  lemma NoneDropped(previous: seq<Source>, urls: seq<string>, n: Name)
    ensures forall url :: !Dropped(previous, urls, |previous|, n, url)
  {
  }

  lemma WithdrawnOne(w: World, s: Source, n: Name)
    requires s.name.Some?
    ensures var v := Apply(Apply(w, Remove(s.name.value, s.url)), EvictSource(s.name.value, s.url));
            && v.sources == w.sources && (n in v.cache ==> v.cache[n] == w.cache[n])
            && (n in v.cache <==> n in w.cache && !(s.name == Some(n) && w.cache[n].source == s.url))
  {
    hide ValidName;
  }

  lemma DroppedNext(previous: seq<Source>, urls: seq<string>, i: nat, n: Name, w: World)
    requires i < |previous| && n in w.cache
    ensures var s, url := previous[i], w.cache[n].source;
            Dropped(previous, urls, i, n, url) <==>
              Dropped(previous, urls, i + 1, n, url) || (s.url == url && url !in urls && s.name == Some(n))
  {
  }

  /** The new state of every replacement of the catalogue. */
  lemma SetSourcesMeans(w: World, urls: seq<string>)
    requires Settled(w) && Distinct(urls)
    ensures Replaced(w, urls, SetSources(w, urls))
  {
    hide Settled, SetSources, SetPlan, Run, Documented, Distinct, ValidName, Dropped, Leaves, Urls.SourceOrigin;
    SetSourcesKeeps(w, urls, 0);
    SetCatalogue(w, urls);
    forall n: Name
      ensures n in SetSources(w, urls).cache <==> n in w.cache && !Leaves(w, urls, n, w.cache[n].source)
      ensures n in SetSources(w, urls).cache ==> SetSources(w, urls).cache[n] == w.cache[n]
    {
      SetDocuments(w, urls, n);
    }
  }

  lemma SetDocuments(w: World, urls: seq<string>, n: Name)
    ensures var r := SetSources(w, urls);
            && (n in r.cache <==> n in w.cache && !Leaves(w, urls, n, w.cache[n].source))
            && (n in r.cache ==> r.cache[n] == w.cache[n])
  {
    hide Run, NextSources, WithdrawPlan;
    var configure := Configure(NextSources(w.sources, urls));
    RunOne(w, configure);
    RunConcat(w, [configure], WithdrawPlan(w.sources, urls, 0));
    WithdrawnDocuments(Apply(w, configure), w.sources, urls, 0, n);
  }

  lemma SetCatalogue(w: World, urls: seq<string>)
    requires Settled(w)
    ensures var r := SetSources(w, urls);
            && |r.sources| == |urls|
            && (forall k, j | 0 <= k < |urls| && 0 <= j < |w.sources| && w.sources[j].url == urls[k] :: r.sources[k] == w.sources[j])
            && (forall k | 0 <= k < |urls| && (forall j | 0 <= j < |w.sources| :: w.sources[j].url != urls[k]) ::
                  r.sources[k] == Source(urls[k], None, "", false))
  {
    hide Run, WithdrawPlan, Urls.SourceOrigin;
    var configure := Configure(NextSources(w.sources, urls));
    RunOne(w, configure);
    RunConcat(w, [configure], WithdrawPlan(w.sources, urls, 0));
    var n: Name := "cassette";
    WithdrawnDocuments(Apply(w, configure), w.sources, urls, 0, n);
    assert SetSources(w, urls).sources == NextSources(w.sources, urls);
    forall k: nat | k < |urls|
      ensures forall j | 0 <= j < |w.sources| && w.sources[j].url == urls[k] :: NextSources(w.sources, urls)[k] == w.sources[j]
      ensures (forall j | 0 <= j < |w.sources| :: w.sources[j].url != urls[k]) ==>
                NextSources(w.sources, urls)[k] == Source(urls[k], None, "", false)
    {
      NextAt(w.sources, urls, k);
    }
  }

  // ---------------------------------------------------------------- names

  /** A cassette name: two to thirty-two lower-case letters, digits and inner hyphens, from a
      letter on, and not one of the two reserved words. */
  lemma NamesAre(s: string)
    ensures ValidName(s) <==>
              && 2 <= |s| <= 32 && (forall c | c in s :: LowerOrDigit(c) || c == '-')
              && s[0] !in "0123456789-" && s[|s| - 1] != '-' && s !in {"public", "tapes"}
  {
    if 2 <= |s| && forall c | c in s :: LowerOrDigit(c) || c == '-' {
      assert s[0] in s && s[|s| - 1] in s;
      assert forall i | 0 <= i < |s| :: s[i] in s;
      if |s| >= 3 { assert s[2] != "pg_"[2]; }
    }
    if ValidName(s) {
      forall c | c in s ensures LowerOrDigit(c) || c == '-' {
        var i :| 0 <= i < |s| && s[i] == c;
      }
    }
  }
}
