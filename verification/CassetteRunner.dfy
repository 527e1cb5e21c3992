/** The runner, registry and spec cache as the server holds them, updated step by step.
    Each operation is tied to the action sequence CassetteModel gives it. */
module CassetteRunner {
  import opened Llm
  import opened CassetteModel
  import CassetteFreshness
  import CassetteRuns
  import Urls

  class Registry {
    const rules: Urls.Rules
    var instances: map<Name, Instance>
    var order: seq<Name>

    /** order lists every registered name once. */
    ghost predicate Valid()
      reads this
    {
      && (forall i, j | 0 <= i < j < |order| :: order[i] != order[j])
      && (forall n :: n in order <==> n in instances)
    }

    constructor (rules: Urls.Rules)
      ensures Valid() && instances == map[] && this.rules == rules
    {
      this.rules, instances, order := rules, map[], [];
    }

    /** Refuses a string that is no cassette name, and an instance whose origin is not a usable
        proxy target. */
    method Put(name: string, instance: Instance) returns (ok: bool)
      requires Valid()
      modifies this
      ensures Valid() && ok == (ValidName(name) && Urls.Usable(rules, instance.origin))
      ensures instances == if ok then old(instances)[name := instance] else old(instances)
      ensures order == if ok && name !in old(instances) then old(order) + [name] else old(order)
    {
      ok := ValidName(name) && Urls.Usable(rules, instance.origin);
      if !ok {
        return;
      }
      if name !in instances {
        order := order + [name];
      }
      instances := instances[name := instance];
    }

    /** Drops name only while source still owns it. */
    method RemoveOwned(name: Name, source: string) returns (removed: bool)
      requires Valid()
      modifies this
      ensures Valid()
      ensures removed == (name in old(instances) && old(instances)[name].source == source)
      ensures instances == if removed then old(instances) - {name} else old(instances)
    {
      if name !in instances || instances[name].source != source {
        return false;
      }
      assert name in order;
      instances := instances - {name};
      var i := 0;
      while order[i] != name
        invariant 0 <= i < |order| && forall k | 0 <= k < i :: order[k] != name
        invariant exists k :: i <= k < |order| && order[k] == name
        decreases |order| - i
      {
        i := i + 1;
      }
      var rest := order[..i] + order[i + 1..];
      forall n ensures n in rest <==> n in order && n != name {
        if n in order && n != name {
          var k :| 0 <= k < |order| && order[k] == n;
          assert if k < i then rest[k] == n else rest[k - 1] == n;
        }
      }
      order := rest;
      return true;
    }
  }

  class SpecCache {
    var entries: map<Name, Entry>

    constructor ()
      ensures entries == map[]
    {
      entries := map[];
    }

    method Publish(name: Name, doc: Doc, source: string)
      modifies this
      ensures entries == old(entries)[name := Entry(source, doc, false)]
    {
      entries := entries[name := Entry(source, doc, false)];
    }

    method Evict(name: Name)
      modifies this
      ensures entries == old(entries) - {name}
    {
      entries := entries - {name};
    }

    method EvictSource(name: Name, source: string)
      modifies this
      ensures entries == if name in old(entries) && old(entries)[name].source == source then old(entries) - {name} else old(entries)
    {
      if name in entries && entries[name].source == source {
        entries := entries - {name};
      }
    }

    method Mark(name: Name, source: string, stale: bool)
      modifies this
      ensures entries == if name in old(entries) && old(entries)[name].source == source
                         then old(entries)[name := old(entries)[name].(stale := stale)] else old(entries)
    {
      if name !in entries || entries[name].source != source {
        return;
      }
      entries := entries[name := entries[name].(stale := stale)];
    }
  }

  /** What replacing the catalogue of a settled fleet was to leave. */
  ghost predicate ReplacementMeant(w: World, urls: seq<string>, r: World) {
    Settled(w) ==> CassetteFreshness.Replaced(w, urls, r)
  }

  lemma ReplacementIsMeant(w: World, urls: seq<string>)
    requires Distinct(urls)
    ensures ReplacementMeant(w, urls, CassetteModel.SetSources(w, urls))
  {
    if Settled(w) { CassetteFreshness.SetSourcesMeans(w, urls); }
  }

  class Runner {
    const rules: Urls.Rules
    const registry: Registry
    const specs: SpecCache
    var sources: seq<Source>

    ghost predicate Valid()
      reads this, registry
    {
      registry.Valid() && registry.rules == rules
    }

    ghost function State(): World
      reads this, registry, specs
    {
      World(rules, sources, registry.instances, specs.entries)
    }

    constructor (rules: Urls.Rules)
      ensures Valid() && State() == CassetteRuns.Nothing(rules)
      ensures fresh(registry) && fresh(specs)
    {
      this.rules := rules;
      registry := new Registry(rules);
      specs := new SpecCache();
      sources := [];
    }

    method SourceIndex(url: string) returns (r: int)
      ensures r == IndexOf(sources, url, 0)
    {
      for i := 0 to |sources|
        invariant IndexOf(sources, url, i) == IndexOf(sources, url, 0)
      {
        if sources[i].url == url {
          return i;
        }
      }
      return -1;
    }

    method CheckPriority(name: Name, i: nat) returns (ok: bool)
      requires i < |sources|
      ensures ok == MayTake(State(), i, name)
    {
      if name !in registry.instances || registry.instances[name].source == sources[i].url {
        return true;
      }
      var j := SourceIndex(registry.instances[name].source);
      return j >= 0 && j >= i;
    }

    method FailSource(i: nat)
      requires Valid() && i < |sources|
      modifies specs
      ensures Valid() && State() == Run(old(State()), FailPlan(sources[i]))
    {
      var s := sources[i];
      if s.name.Some? {
        specs.Mark(s.name.value, s.url, true);
        RunOne(old(State()), MarkStale(s.name.value, s.url));
      } else {
        RunNone(old(State()));
      }
    }

    /** refreshSource, given what the conditional fetch answered. */
    method RefreshSource(i: nat, out: Outcome)
      requires Valid() && i < |sources|
      modifies this, registry, specs
      ensures Valid() && State() == CassetteModel.Refresh(old(State()), i, out)
    {
      hide Urls.SourceOrigin, Urls.Usable, Run, ValidName, MayTake, Registry.Valid;
      ghost var before := State();
      var s := sources[i];
      var origin := Urls.SourceOrigin(rules, s.url);
      if origin.None? {
        FailSource(i);
        return;
      }
      var published := s.resolved && s.name.Some? && s.name.value in registry.instances
                       && registry.instances[s.name.value].source == s.url
                       && s.name.value in specs.entries && specs.entries[s.name.value].source == s.url;
      if out.NotModified? && published {
        specs.Mark(s.name.value, s.url, false);
        RunOne(before, MarkFresh(s.name.value, s.url));
        return;
      }
      if !out.Fetched? || out.doc.declared.None? || (s.resolved && s.name != out.doc.declared) {
        FailSource(i);
        return;
      }
      var name := out.doc.declared.value;
      var priority := CheckPriority(name, i);
      if !priority || !out.doc.publishable {
        FailSource(i);
        return;
      }
      specs.Publish(name, out.doc, s.url);
      ghost var publish := CassetteModel.Publish(name, Entry(s.url, out.doc, false));
      var instance := Instance(s.url, origin.value, out.doc);
      var ok := registry.Put(name, instance);
      if !ok {
        specs.Evict(name);
        RunThree(before, publish, CassetteModel.Evict(name), publish);
        FailSource(i);
        RunConcat(before, [publish, CassetteModel.Evict(name)], FailPlan(s));
        return;
      }
      sources := sources[i := s.(name := Some(name), etag := out.etag, resolved := true)];
      RunThree(before, publish, CassetteModel.Put(name, instance), Resolve(i, name, out.etag));
    }

    /** The next catalogue: a retained URL keeps its identity and validator. */
    method NextCatalogue(urls: seq<string>) returns (next: seq<Source>, retained: seq<bool>)
      requires Distinct(urls)
      requires forall i, j | 0 <= i < j < |sources| :: sources[i].url != sources[j].url
      ensures next == NextSources(sources, urls) && |retained| == |sources|
      ensures forall j | 0 <= j < |sources| :: retained[j] <==> sources[j].url in urls
    {
      retained := seq(|sources|, i => false);
      next := [];
      for k := 0 to |urls|
        invariant |retained| == |sources| && next == NextSources(sources, urls)[..k]
        invariant forall j | 0 <= j < |sources| :: retained[j] <==> sources[j].url in urls[..k]
      {
        var state := Source(urls[k], None, "", false);
        ghost var was := retained;
        for j := 0 to |sources|
          invariant |retained| == |sources| && retained == was
          invariant state == Source(urls[k], None, "", false)
          invariant forall m | 0 <= m < j :: sources[m].url != urls[k]
        {
          if !retained[j] && sources[j].url == urls[k] {
            state := sources[j];
            retained := retained[j := true];
            break;
          }
          assert sources[j].url != urls[k];
        }
        NextAt(sources, urls, k);
        assert state == NextSources(sources, urls)[k];
        assert urls[..k + 1] == urls[..k] + [urls[k]];
        next := next + [state];
      }
      assert urls[..|urls|] == urls;
    }

    /** Withdraws the sources of an earlier catalogue that are no longer configured. */
    method Withdraw(previous: seq<Source>, retained: seq<bool>, urls: seq<string>)
      requires Valid() && |retained| == |previous|
      requires forall j | 0 <= j < |previous| :: retained[j] <==> previous[j].url in urls
      modifies registry, specs
      ensures Valid() && State() == Run(old(State()), WithdrawPlan(previous, urls, 0))
    {
      hide Run;
      ghost var before := State();
      for i := 0 to |previous|
        invariant Valid()
        invariant Run(State(), WithdrawPlan(previous, urls, i)) == Run(before, WithdrawPlan(previous, urls, 0))
      {
        var s := previous[i];
        ghost var here := State();
        ghost var rest := WithdrawPlan(previous, urls, i + 1);
        if retained[i] || s.url in urls || s.name.None? {
          assert WithdrawPlan(previous, urls, i) == rest;
          continue;
        }
        var _ := registry.RemoveOwned(s.name.value, s.url);
        specs.EvictSource(s.name.value, s.url);
        RunThree(here, Remove(s.name.value, s.url), EvictSource(s.name.value, s.url), Remove(s.name.value, s.url));
        RunConcat(here, [Remove(s.name.value, s.url), EvictSource(s.name.value, s.url)], rest);
      }
      RunNone(State());
    }

    /** SetSources: retained URLs keep their state, dropped ones are withdrawn, registry
        first and document second. */
    method SetSources(urls: seq<string>)
      requires Valid() && Distinct(urls)
      requires forall i, j | 0 <= i < j < |sources| :: sources[i].url != sources[j].url
      modifies this, registry, specs
      ensures Valid() && State() == CassetteModel.SetSources(old(State()), urls)
      ensures ReplacementMeant(old(State()), urls, State())
    {
      ReplacementIsMeant(State(), urls);
      hide Run, NextSources, WithdrawPlan, ReplacementMeant;
      ghost var before := State();
      var previous := sources;
      var next, retained := NextCatalogue(urls);
      sources := next;
      RunOne(before, Configure(next));
      Withdraw(previous, retained, urls);
      RunConcat(before, [Configure(next)], WithdrawPlan(previous, urls, 0));
    }

    /** Refresh: every configured source once, in configured order. */
    method Refresh(outs: seq<Outcome>)
      requires Valid()
      modifies this, registry, specs
      ensures Valid() && State() == CassetteRuns.PassTo(old(State()), outs, |old(sources)|)
    {
      hide CassetteModel.Refresh, Valid;
      ghost var before := State();
      var n := |sources|;
      for i := 0 to n
        invariant Valid() && |sources| == n == |before.sources|
        invariant State() == CassetteRuns.PassTo(before, outs, i)
      {
        RefreshSource(i, CassetteRuns.OutcomeAt(outs, i));
      }
    }
  }
}
