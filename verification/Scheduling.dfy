/** Scheduling source plugins: which streams are configured, and opening each of them once. */
module Scheduling {
  import opened Options
  import opened Text
  import opened MapOrders
  import opened AgentConfig
  import opened Streams

  datatype PluginDispatch = PluginDispatch(pluginName: string, pluginConfig: string, isInteractivitySupported: bool,
                                           sourceName: string, sourceDisplayName: string, pluginContext: string)

  datatype StartedSource = StartedSource(sourceDisplayName: string, pluginName: string, pluginConfig: string,
                                         isInteractivitySupported: bool)

  /** Serialises a plugin configuration; `None` when it cannot be serialised. */
  type Marshal = string -> Option<string>

  type DispatchConfig = map<string, map<string, PluginDispatch>>
  type StartedSources = map<string, map<bool, StartedSource>>

  /** A source in one of its two flavours. */
  datatype Flavour = Flavour(source: string, interactive: bool) {
    function Key(): string { source + "_interactive/" + if interactive then "true" else "false" }
  }

  lemma FlavourKeyInjective(a: Flavour, b: Flavour)
    requires a.Key() == b.Key()
    ensures a == b
  {
    var k := a.Key();
    assert k[|k| - 2] == if a.interactive then 'u' else 's';
    assert k[|k| - 2] == if b.interactive then 'u' else 's';
    var suffix := if a.interactive then 17 else 18;
    assert a.source == k[..|k| - suffix] && b.source == k[..|k| - suffix];
  }

  /** All enabled plugins of a source exist and can be configured. */
  predicate Configurable(cfg: Config, marshal: Marshal, source: string) {
    source in cfg.sources
    && forall p | p in EnabledPlugins(cfg.sources[source].plugins) ::
      marshal(cfg.sources[source].plugins[p].config).Some?
  }

  /** Nothing bound is missing, and every enabled plugin of what is bound has a configuration that can be serialised. */
  ghost predicate Serialisable(cfg: Config, marshal: Marshal) {
    && (forall s, i | Bound(cfg, s, i) :: s in cfg.sources)
    && (forall s, i, p | Bound(cfg, s, i) && s in cfg.sources && p in cfg.sources[s].plugins
                         && cfg.sources[s].plugins[p].enabled ::
          marshal(cfg.sources[s].plugins[p].config).Some?)
  }

  lemma SerialisableIff(cfg: Config, marshal: Marshal)
    ensures Serialisable(cfg, marshal) <==> forall s, i | Bound(cfg, s, i) :: Configurable(cfg, marshal, s)
  {
    if Serialisable(cfg, marshal) {
      forall s, i | Bound(cfg, s, i) ensures Configurable(cfg, marshal, s) {
      }
    }
    if forall s, i | Bound(cfg, s, i) :: Configurable(cfg, marshal, s) {
      forall s, i, p | Bound(cfg, s, i) && s in cfg.sources && p in cfg.sources[s].plugins
                       && cfg.sources[s].plugins[p].enabled
        ensures marshal(cfg.sources[s].plugins[p].config).Some?
      {
        assert Configurable(cfg, marshal, s) && p in EnabledPlugins(cfg.sources[s].plugins);
      }
    }
  }

  predicate CanDispatch(cfg: Config, marshal: Marshal, source: string, plugin: string) {
    source in cfg.sources && plugin in cfg.sources[source].plugins
      && marshal(cfg.sources[source].plugins[plugin].config).Some?
  }

  function DispatchOf(cfg: Config, marshal: Marshal, f: Flavour, plugin: string): PluginDispatch
    requires CanDispatch(cfg, marshal, f.source, plugin)
  {
    var group := cfg.sources[f.source];
    PluginDispatch(plugin, marshal(group.plugins[plugin].config).value, f.interactive, f.source, group.displayName,
                   group.plugins[plugin].context)
  }

  function StartedOf(d: PluginDispatch): StartedSource {
    StartedSource(d.sourceDisplayName, d.pluginName, d.pluginConfig, d.isInteractivitySupported)
  }

  predicate HasStarted(started: StartedSources, f: Flavour) {
    f.source in started && f.interactive in started[f.source]
  }

  /**
   The flavour has exactly one configured stream, of one of its source's enabled plugins, and is recorded with that
   plugin.
   */
  ghost predicate Configured(cfg: Config, marshal: Marshal, dispatch: DispatchConfig, started: StartedSources,
                             f: Flavour) {
    && Configurable(cfg, marshal, f.source)
    && f.Key() in dispatch && HasStarted(started, f)
    && exists plugin | plugin in EnabledSources(cfg, f.source) && CanDispatch(cfg, marshal, f.source, plugin) ::
         && dispatch[f.Key()] == map[plugin := DispatchOf(cfg, marshal, f, plugin)]
         && started[f.source][f.interactive] == StartedOf(DispatchOf(cfg, marshal, f, plugin))
  }

  ghost predicate AllConfigured(cfg: Config, marshal: Marshal, dispatch: DispatchConfig, started: StartedSources,
                                done: set<Flavour>) {
    && (forall f | f in done :: Configurable(cfg, marshal, f.source))
    && (forall f | f in done && EnabledSources(cfg, f.source) != {} :: Configured(cfg, marshal, dispatch, started, f))
  }

  ghost predicate NoOtherKeys(cfg: Config, dispatch: DispatchConfig, done: set<Flavour>) {
    forall key | key in dispatch :: exists f | f in done :: f.Key() == key && EnabledSources(cfg, f.source) != {}
  }

  ghost predicate NoOtherStarted(cfg: Config, started: StartedSources, done: set<Flavour>) {
    forall f | HasStarted(started, f) :: f in done && EnabledSources(cfg, f.source) != {}
  }

  /** Configurations have been generated for exactly the flavours in `done`. */
  ghost predicate Generated(cfg: Config, marshal: Marshal, dispatch: DispatchConfig, started: StartedSources,
                            done: set<Flavour>) {
    && AllConfigured(cfg, marshal, dispatch, started, done)
    && NoOtherKeys(cfg, dispatch, done)
    && NoOtherStarted(cfg, started, done)
  }

  /** What is configured for the flavours, as a pair of maps. */
  datatype Plan = Plan(dispatch: DispatchConfig, started: StartedSources)

  function WithStream(plan: Plan, f: Flavour, d: PluginDispatch): Plan {
    var sources := if f.source in plan.started then plan.started[f.source] else map[];
    Plan(plan.dispatch[f.Key() := map[d.pluginName := d]],
         plan.started[f.source := sources[f.interactive := StartedOf(d)]])
  }

  lemma StreamsOverwrite(plan: Plan, f: Flavour, d: PluginDispatch, e: PluginDispatch)
    ensures WithStream(WithStream(plan, f, d), f, e) == WithStream(plan, f, e)
  {
    var twice := WithStream(WithStream(plan, f, d), f, e);
    var once := WithStream(plan, f, e);
    assert twice.dispatch == once.dispatch;
    assert twice.started[f.source] == once.started[f.source];
    assert twice.started == once.started;
  }

  // ---- the loop over the plugins of a source -------------------------------------------

  /** The last enabled plugin in the order. */
  function LastEnabled(plugins: map<string, Plugin>, order: seq<string>): (last: Option<string>)
    ensures last.Some? ==> last.value in order && last.value in plugins && plugins[last.value].enabled
    ensures last.None? ==> forall p | p in order && p in plugins :: !plugins[p].enabled
  {
    if order == [] then None
    else
      var p := order[|order| - 1];
      if p in plugins && plugins[p].enabled then Some(p)
      else
        assert forall q | q in order :: q == p || q in order[..|order| - 1];
        LastEnabled(plugins, order[..|order| - 1])
  }

  /** The plugin at `i` is enabled, and none after it is. */
  predicate LastEnabledAt(plugins: map<string, Plugin>, order: seq<string>, i: nat) {
    && i < |order| && order[i] in plugins && plugins[order[i]].enabled
    && forall j | i < j < |order| :: order[j] in plugins ==> !plugins[order[j]].enabled
  }

  lemma {:induction false} LastEnabledMeaning(plugins: map<string, Plugin>, order: seq<string>, p: string)
    ensures LastEnabled(plugins, order) == Some(p) <==>
      exists i: nat :: LastEnabledAt(plugins, order, i) && order[i] == p
  {
    if order != [] {
      var init, last := order[..|order| - 1], order[|order| - 1];
      LastEnabledMeaning(plugins, init, p);
      var ends := last in plugins && plugins[last].enabled;
      if i: nat :| LastEnabledAt(plugins, init, i) && init[i] == p {
        assert !ends ==> LastEnabledAt(plugins, order, i);
      }
      if i: nat :| LastEnabledAt(plugins, order, i) && order[i] == p {
        assert i < |init| ==> LastEnabledAt(plugins, init, i) && init[i] == p;
      }
      assert ends ==> LastEnabledAt(plugins, order, |init|);
    }
  }

  /** One run of the loop: the flavour it is for and the order in which Go iterates the plugins. */
  datatype Call = Call(flavour: Flavour, order: seq<string>)

  ghost predicate Callable(cfg: Config, marshal: Marshal, call: Call) {
    Configurable(cfg, marshal, call.flavour.source)
      && IsOrder(call.order, cfg.sources[call.flavour.source].plugins.Keys)
  }

  lemma EnabledCanDispatch(cfg: Config, marshal: Marshal, source: string, p: string)
    requires Configurable(cfg, marshal, source) && p in cfg.sources[source].plugins
      && cfg.sources[source].plugins[p].enabled
    ensures CanDispatch(cfg, marshal, source, p) && p in EnabledSources(cfg, source)
  {
    assert p in EnabledPlugins(cfg.sources[source].plugins);
  }

  /** What the loop does, plugin by plugin; a disabled plugin is skipped, an enabled one replaces the stream. */
  function LoopOver(cfg: Config, marshal: Marshal, before: Plan, f: Flavour, order: seq<string>): Plan {
    if order == [] then before
    else
      var p, earlier := order[|order| - 1], LoopOver(cfg, marshal, before, f, order[..|order| - 1]);
      if CanDispatch(cfg, marshal, f.source, p) && cfg.sources[f.source].plugins[p].enabled
      then WithStream(earlier, f, DispatchOf(cfg, marshal, f, p)) else earlier
  }

  lemma LoopNext(cfg: Config, marshal: Marshal, before: Plan, f: Flavour, order: seq<string>, j: nat)
    requires j < |order|
    ensures order[..j + 1] == order[..j] + [order[j]]
    ensures LoopOver(cfg, marshal, before, f, order[..j + 1]) ==
            var earlier := LoopOver(cfg, marshal, before, f, order[..j]);
            if CanDispatch(cfg, marshal, f.source, order[j]) && cfg.sources[f.source].plugins[order[j]].enabled
            then WithStream(earlier, f, DispatchOf(cfg, marshal, f, order[j])) else earlier
  {
    assert order[..j + 1][..j] == order[..j];
  }

  /** The last enabled plugin of the order gets the stream. */
  lemma {:induction false} LastEnabledWins(cfg: Config, marshal: Marshal, before: Plan, f: Flavour, order: seq<string>)
    requires Configurable(cfg, marshal, f.source)
    ensures match LastEnabled(cfg.sources[f.source].plugins, order)
            case None => LoopOver(cfg, marshal, before, f, order) == before
            case Some(p) =>
              && CanDispatch(cfg, marshal, f.source, p) && p in EnabledSources(cfg, f.source)
              && LoopOver(cfg, marshal, before, f, order) == WithStream(before, f, DispatchOf(cfg, marshal, f, p))
  {
    if order != [] {
      var init, p := order[..|order| - 1], order[|order| - 1];
      LastEnabledWins(cfg, marshal, before, f, init);
      if p in cfg.sources[f.source].plugins && cfg.sources[f.source].plugins[p].enabled {
        EnabledCanDispatch(cfg, marshal, f.source, p);
        var earlier := LastEnabled(cfg.sources[f.source].plugins, init);
        if earlier.Some? {
          StreamsOverwrite(before, f, DispatchOf(cfg, marshal, f, earlier.value), DispatchOf(cfg, marshal, f, p));
        }
      }
    }
  }

  /** What a sequence of runs of the loop configures. */
  function PlanOf(cfg: Config, marshal: Marshal, calls: seq<Call>): Plan {
    if calls == [] then Plan(map[], map[])
    else
      var last := calls[|calls| - 1];
      LoopOver(cfg, marshal, PlanOf(cfg, marshal, calls[..|calls| - 1]), last.flavour, last.order)
  }

  ghost predicate AllCallable(cfg: Config, marshal: Marshal, calls: seq<Call>) {
    forall i | 0 <= i < |calls| :: Callable(cfg, marshal, calls[i])
  }

  function FlavoursOf(calls: seq<Call>): set<Flavour> {
    if calls == [] then {} else FlavoursOf(calls[..|calls| - 1]) + {calls[|calls| - 1].flavour}
  }

  lemma StreamKeepsOthers(cfg: Config, marshal: Marshal, plan: Plan, f: Flavour, d: PluginDispatch, g: Flavour)
    requires g != f && Configured(cfg, marshal, plan.dispatch, plan.started, g)
    ensures Configured(cfg, marshal, WithStream(plan, f, d).dispatch, WithStream(plan, f, d).started, g)
  {
    if g.Key() == f.Key() {
      FlavourKeyInjective(g, f);
    }
    var next := WithStream(plan, f, d);
    assert next.dispatch[g.Key()] == plan.dispatch[g.Key()];
    assert HasStarted(next.started, g)
      && next.started[g.source][g.interactive] == plan.started[g.source][g.interactive];
  }

  lemma StreamConfigures(cfg: Config, marshal: Marshal, plan: Plan, f: Flavour, p: string)
    requires Configurable(cfg, marshal, f.source) && p in EnabledSources(cfg, f.source)
      && CanDispatch(cfg, marshal, f.source, p)
    ensures var next := WithStream(plan, f, DispatchOf(cfg, marshal, f, p));
            Configured(cfg, marshal, next.dispatch, next.started, f)
  {
  }

  lemma GeneratedNext(cfg: Config, marshal: Marshal, before: Plan, done: set<Flavour>, call: Call)
    requires Generated(cfg, marshal, before.dispatch, before.started, done) && Callable(cfg, marshal, call)
    ensures var after := LoopOver(cfg, marshal, before, call.flavour, call.order);
            Generated(cfg, marshal, after.dispatch, after.started, done + {call.flavour})
  {
    var f := call.flavour;
    LastEnabledWins(cfg, marshal, before, f, call.order);
    match LastEnabled(cfg.sources[f.source].plugins, call.order) {
      case Some(p) =>
        StreamConfigures(cfg, marshal, before, f, p);
        GeneratedWithStream(cfg, marshal, before, done, done + {f}, f, DispatchOf(cfg, marshal, f, p));
      case None =>
        NothingEnabled(cfg, marshal, before, done, call);
    }
  }

  lemma NothingEnabled(cfg: Config, marshal: Marshal, before: Plan, done: set<Flavour>, call: Call)
    requires Generated(cfg, marshal, before.dispatch, before.started, done) && Callable(cfg, marshal, call)
    requires LastEnabled(cfg.sources[call.flavour.source].plugins, call.order).None?
    ensures Generated(cfg, marshal, before.dispatch, before.started, done + {call.flavour})
  {
    var f := call.flavour;
    assert EnabledSources(cfg, f.source) == {} by {
      forall p | p in cfg.sources[f.source].plugins ensures !cfg.sources[f.source].plugins[p].enabled {
        assert p in call.order;
      }
    }
    forall key | key in before.dispatch
      ensures exists g | g in done + {f} :: g.Key() == key && EnabledSources(cfg, g.source) != {}
    {
      var g :| g in done && g.Key() == key && EnabledSources(cfg, g.source) != {};
      assert g in done + {f};
    }
  }

  /** After any sequence of runs exactly their flavours are configured. */
  lemma {:induction false} PlanIsGenerated(cfg: Config, marshal: Marshal, calls: seq<Call>)
    requires AllCallable(cfg, marshal, calls)
    ensures var plan := PlanOf(cfg, marshal, calls);
            Generated(cfg, marshal, plan.dispatch, plan.started, FlavoursOf(calls))
  {
    if calls != [] {
      var init, last := calls[..|calls| - 1], calls[|calls| - 1];
      assert forall i | 0 <= i < |init| :: init[i] == calls[i];
      PlanIsGenerated(cfg, marshal, init);
      GeneratedNext(cfg, marshal, PlanOf(cfg, marshal, init), FlavoursOf(init), last);
    }
  }

  lemma {:induction false} CalledIsConfigurable(cfg: Config, marshal: Marshal, calls: seq<Call>, f: Flavour)
    requires AllCallable(cfg, marshal, calls) && f in FlavoursOf(calls)
    ensures Configurable(cfg, marshal, f.source)
  {
    var init, last := calls[..|calls| - 1], calls[|calls| - 1];
    assert Callable(cfg, marshal, last) && forall i | 0 <= i < |init| :: init[i] == calls[i];
    if f != last.flavour {
      CalledIsConfigurable(cfg, marshal, init, f);
    }
  }

  lemma CallableNext(cfg: Config, marshal: Marshal, calls: seq<Call>, call: Call)
    requires AllCallable(cfg, marshal, calls) && Callable(cfg, marshal, call)
    ensures AllCallable(cfg, marshal, calls + [call])
  {
  }

  lemma PlanNext(cfg: Config, marshal: Marshal, calls: seq<Call>, call: Call)
    ensures PlanOf(cfg, marshal, calls + [call])
      == LoopOver(cfg, marshal, PlanOf(cfg, marshal, calls), call.flavour, call.order)
    ensures FlavoursOf(calls + [call]) == FlavoursOf(calls) + {call.flavour}
  {
    assert (calls + [call])[..|calls|] == calls;
  }

  lemma AllConfiguredWithStream(cfg: Config, marshal: Marshal, before: Plan, done: set<Flavour>, all: set<Flavour>,
                                f: Flavour, d: PluginDispatch)
    requires all == done + {f}
    requires AllConfigured(cfg, marshal, before.dispatch, before.started, done)
    requires Configured(cfg, marshal, WithStream(before, f, d).dispatch, WithStream(before, f, d).started, f)
    ensures AllConfigured(cfg, marshal, WithStream(before, f, d).dispatch, WithStream(before, f, d).started, all)
  {
    var after := WithStream(before, f, d);
    forall g | g in all && EnabledSources(cfg, g.source) != {}
      ensures Configured(cfg, marshal, after.dispatch, after.started, g)
    {
      if g != f {
        StreamKeepsOthers(cfg, marshal, before, f, d, g);
      }
    }
  }

  lemma NoOtherKeysWithStream(cfg: Config, before: Plan, done: set<Flavour>, all: set<Flavour>, f: Flavour,
                              d: PluginDispatch)
    requires all == done + {f}
    requires NoOtherKeys(cfg, before.dispatch, done) && EnabledSources(cfg, f.source) != {}
    ensures NoOtherKeys(cfg, WithStream(before, f, d).dispatch, all)
  {
    forall key | key in WithStream(before, f, d).dispatch
      ensures exists g | g in all :: g.Key() == key && EnabledSources(cfg, g.source) != {}
    {
      if key in before.dispatch {
        var g :| g in done && g.Key() == key && EnabledSources(cfg, g.source) != {};
        assert g in all;
      } else {
        assert f in all;
      }
    }
  }

  lemma NoOtherStartedWithStream(cfg: Config, before: Plan, done: set<Flavour>, all: set<Flavour>, f: Flavour,
                                 d: PluginDispatch)
    requires all == done + {f}
    requires NoOtherStarted(cfg, before.started, done) && EnabledSources(cfg, f.source) != {}
    ensures NoOtherStarted(cfg, WithStream(before, f, d).started, all)
  {
    forall g | HasStarted(WithStream(before, f, d).started, g) ensures g in all && EnabledSources(cfg, g.source) != {} {
      if g != f {
        assert HasStarted(before.started, g);
      }
    }
  }

  lemma GeneratedWithStream(cfg: Config, marshal: Marshal, before: Plan, done: set<Flavour>, all: set<Flavour>,
                            f: Flavour, d: PluginDispatch)
    requires all == done + {f}
    requires Generated(cfg, marshal, before.dispatch, before.started, done) && EnabledSources(cfg, f.source) != {}
    requires Configured(cfg, marshal, WithStream(before, f, d).dispatch, WithStream(before, f, d).started, f)
    ensures Generated(cfg, marshal, WithStream(before, f, d).dispatch, WithStream(before, f, d).started, all)
  {
    AllConfiguredWithStream(cfg, marshal, before, done, all, f, d);
    NoOtherKeysWithStream(cfg, before, done, all, f, d);
    NoOtherStartedWithStream(cfg, before, done, all, f, d);
  }

  class Scheduler {
    const cfg: Config
    const marshal: Marshal
    var dispatchConfig: DispatchConfig
    var startedSourcePlugins: StartedSources
    const openedStreams: OpenedStreams
    /** The runs of the loop so far, and their flavours. */
    ghost var calls: seq<Call>
    ghost var done: set<Flavour>

    ghost predicate Valid()
      reads this
    {
      && AllCallable(cfg, marshal, calls) && done == FlavoursOf(calls)
      && CurrentPlan() == PlanOf(cfg, marshal, calls)
    }

    ghost function CurrentPlan(): Plan
      reads this
    {
      Plan(dispatchConfig, startedSourcePlugins)
    }

    constructor (cfg: Config, marshal: Marshal)
      ensures Valid() && done == {} && this.cfg == cfg && this.marshal == marshal
      ensures fresh(openedStreams) && openedStreams.Valid() && openedStreams.log == []
    {
      this.cfg, this.marshal := cfg, marshal;
      dispatchConfig, startedSourcePlugins, done, calls := map[], map[], {}, [];
      openedStreams := new OpenedStreams();
    }

    method SetStream(f: Flavour, config: PluginDispatch)
      modifies this`dispatchConfig, this`startedSourcePlugins
      ensures CurrentPlan() == WithStream(old(CurrentPlan()), f, config)
    {
      dispatchConfig := dispatchConfig[f.Key() := map[config.pluginName := config]];
      if f.source !in startedSourcePlugins {
        startedSourcePlugins := startedSourcePlugins[f.source := map[]];
      }
      startedSourcePlugins := startedSourcePlugins[f.source := startedSourcePlugins[f.source][f.interactive :=
        StartedSource(config.sourceDisplayName, config.pluginName, config.pluginConfig,
                      config.isInteractivitySupported)]];
    }

    /** The loop over the plugins of an existing source. */
    method ConfigurePlugins(f: Flavour, order: seq<string>) returns (ok: bool)
      requires f.source in cfg.sources && IsOrder(order, cfg.sources[f.source].plugins.Keys)
      modifies this`dispatchConfig, this`startedSourcePlugins
      ensures ok <==> Configurable(cfg, marshal, f.source)
      ensures ok ==> CurrentPlan() == LoopOver(cfg, marshal, old(CurrentPlan()), f, order)
    {
      var group := cfg.sources[f.source];
      for j := 0 to |order|
        invariant forall p | p in order[..j] :: group.plugins[p].enabled ==> marshal(group.plugins[p].config).Some?
        invariant CurrentPlan() == LoopOver(cfg, marshal, old(CurrentPlan()), f, order[..j])
      {
        var pluginName := order[j];
        assert pluginName in order;
        LoopNext(cfg, marshal, old(CurrentPlan()), f, order, j);
        var plugin := group.plugins[pluginName];
        if !plugin.enabled {
          continue;
        }
        var raw := marshal(plugin.config);
        if raw.None? {
          assert pluginName in EnabledPlugins(group.plugins);
          return false;
        }
        SetStream(f, PluginDispatch(pluginName, raw.value, f.interactive, f.source, group.displayName, plugin.context));
      }
      assert order[..|order|] == order;
      return true;
    }

    /** Fails exactly when the source does not exist or one of its enabled plugins cannot be configured. */
    method GeneratePluginConfig(interactive: bool, sourceName: string) returns (ok: bool)
      requires Valid()
      modifies this
      ensures ok <==> Configurable(cfg, marshal, sourceName)
      ensures ok <==>
        && sourceName in cfg.sources
        && var plugins := cfg.sources[sourceName].plugins;
        forall p | p in plugins && plugins[p].enabled :: marshal(plugins[p].config).Some?
      ensures ok ==> Valid() && done == old(done) + {Flavour(sourceName, interactive)}
    {
      if sourceName !in cfg.sources {
        return false;
      }
      var f := Flavour(sourceName, interactive);
      var order := IterationOrder(cfg.sources[sourceName].plugins.Keys);
      ok := ConfigurePlugins(f, order);
      if ok {
        PlanNext(cfg, marshal, calls, Call(f, order));
        CallableNext(cfg, marshal, calls, Call(f, order));
        calls := calls + [Call(f, order)];
        done := done + {f};
      }
    }

    method GenerateSourceConfigs(interactive: bool, boundSources: seq<string>) returns (ok: bool)
      requires Valid()
      modifies this
      ensures ok ==> Valid() && forall f :: f in done <==>
        f in old(done) || (f.interactive == interactive && f.source in boundSources)
      ensures !ok ==> exists s | s in boundSources :: !Configurable(cfg, marshal, s)
    {
      for i := 0 to |boundSources|
        invariant Valid()
        invariant forall f :: f in done <==>
          f in old(done) || (f.interactive == interactive && f.source in boundSources[..i])
      {
        var generated := GeneratePluginConfig(interactive, boundSources[i]);
        if !generated {
          assert boundSources[i] in boundSources;
          return false;
        }
        assert boundSources[..i + 1] == boundSources[..i] + [boundSources[i]];
      }
      assert boundSources[..|boundSources|] == boundSources;
      return true;
    }

    method GenerateForChannels(platform: Platform, enabled: bool, channels: Channels) returns (ok: bool)
      requires Valid()
      modifies this
      ensures ok ==> Valid() && forall f :: f in done <==>
        f in old(done)
        || (enabled && f.interactive == platform.IsInteractive() && ChannelsBindSource(channels, f.source))
      ensures !ok ==> enabled && exists s :: ChannelsBindSource(channels, s) && !Configurable(cfg, marshal, s)
    {
      if enabled {
        var rest := channels.Keys;
        while rest != {}
          invariant rest <= channels.Keys
          invariant Valid()
          invariant forall f :: f in done <==>
            f in old(done)
            || (f.interactive == platform.IsInteractive()
                && exists name | name in channels.Keys - rest :: f.source in channels[name].sources)
        {
          var name :| name in rest;
          rest := rest - {name};
          var generated := GenerateSourceConfigs(platform.IsInteractive(), channels[name].sources);
          if !generated {
            ghost var s :| s in channels[name].sources && !Configurable(cfg, marshal, s);
            assert ChannelsBindSource(channels, s);
            return false;
          }
        }
      }
      return true;
    }

    method GenerateForSink(enabled: bool, sources: seq<string>) returns (ok: bool)
      requires Valid()
      modifies this
      ensures ok ==> Valid() && forall f :: f in done <==>
        f in old(done) || (enabled && !f.interactive && f.source in sources)
      ensures !ok ==> enabled && exists s | s in sources :: !Configurable(cfg, marshal, s)
    {
      ok := true;
      if enabled {
        ok := GenerateSourceConfigs(false, sources);
      }
    }

    method GenerateForTeams(platform: TeamsPlatform) returns (ok: bool)
      requires Valid()
      modifies this
      ensures ok ==> Valid() && forall f :: f in done <==>
        f in old(done)
        || (platform.enabled && f.interactive
            && exists i | 0 <= i < |platform.teams| :: ChannelsBindSource(platform.teams[i], f.source))
      ensures !ok ==>
        platform.enabled && exists i, s | 0 <= i < |platform.teams| ::
          ChannelsBindSource(platform.teams[i], s) && !Configurable(cfg, marshal, s)
    {
      if platform.enabled {
        for i := 0 to |platform.teams|
          invariant Valid()
          invariant forall f :: f in done <==>
            f in old(done)
            || (f.interactive && exists j | 0 <= j < i :: ChannelsBindSource(platform.teams[j], f.source))
        {
          var generated := GenerateForChannels(CloudTeams, true, platform.teams[i]);
          if !generated {
            return false;
          }
        }
      }
      return true;
    }

    method GenerateForIndices(platform: IndexPlatform) returns (ok: bool)
      requires Valid()
      modifies this
      ensures ok ==> Valid() && forall f :: f in done <==>
        f in old(done)
        || (platform.enabled && !f.interactive
            && exists name | name in platform.indices :: f.source in platform.indices[name])
      ensures !ok ==>
        platform.enabled && exists name, s | name in platform.indices ::
          s in platform.indices[name] && !Configurable(cfg, marshal, s)
    {
      if platform.enabled {
        var rest := platform.indices.Keys;
        while rest != {}
          invariant rest <= platform.indices.Keys
          invariant Valid()
          invariant forall f :: f in done <==>
            f in old(done)
            || (!f.interactive
                && exists name | name in platform.indices.Keys - rest :: f.source in platform.indices[name])
        {
          var name :| name in rest;
          rest := rest - {name};
          var generated := GenerateSourceConfigs(false, platform.indices[name]);
          if !generated {
            return false;
          }
        }
      }
      return true;
    }

    /** One platform of a group of communication platforms. */
    method GenerateForPlatform(g: Communications, platform: Platform) returns (ok: bool)
      requires Valid()
      modifies this
      ensures ok ==> Valid() && forall f :: f in done <==> f in old(done) || PlatformNeeds(g, platform, f)
      ensures !ok ==> exists f :: PlatformNeeds(g, platform, f) && !Configurable(cfg, marshal, f.source)
    {
      match platform {
        case CloudSlack => ok := GenerateForChannels(platform, g.cloudSlack.enabled, g.cloudSlack.channels);
        case SocketSlack => ok := GenerateForChannels(platform, g.socketSlack.enabled, g.socketSlack.channels);
        case Mattermost => ok := GenerateForChannels(platform, g.mattermost.enabled, g.mattermost.channels);
        case Discord => ok := GenerateForChannels(platform, g.discord.enabled, g.discord.channels);
        case CloudTeams => ok := GenerateForTeams(g.cloudTeams);
        case Webhook => ok := GenerateForSink(g.webhook.enabled, g.webhook.sources);
        case Elasticsearch => ok := GenerateForIndices(g.elasticsearch);
        case PagerDuty => ok := GenerateForSink(g.pagerDuty.enabled, g.pagerDuty.sources);
        case Teams => ok := true;
      }
      if !ok {
        ghost var s :| PlatformBindsSource(g, platform, s) && !Configurable(cfg, marshal, s);
        assert PlatformNeeds(g, platform, Flavour(s, platform.IsInteractive()));
      }
    }

    method GenerateForBots(g: Communications) returns (ok: bool)
      requires Valid()
      modifies this
      ensures ok ==> Valid() && forall f :: f in done <==> f in old(done) || BotsNeed(g, f)
      ensures !ok ==> exists f :: BotsNeed(g, f) && !Configurable(cfg, marshal, f.source)
    {
      ok := GenerateForPlatform(g, CloudSlack);
      if !ok {
        return;
      }
      ok := GenerateForPlatform(g, SocketSlack);
      if !ok {
        return;
      }
      ok := GenerateForPlatform(g, Mattermost);
      if !ok {
        return;
      }
      ok := GenerateForPlatform(g, CloudTeams);
      if !ok {
        return;
      }
      ok := GenerateForPlatform(g, Discord);
    }

    method GenerateForGroup(g: Communications) returns (ok: bool)
      requires Valid()
      modifies this
      ensures ok ==> Valid() && forall f :: f in done <==> f in old(done) || GroupBinds(g, f.source, f.interactive)
      ensures !ok ==> exists s, i :: GroupBinds(g, s, i) && !Configurable(cfg, marshal, s)
    {
      forall f { GroupBindsCases(g, f); }
      ok := GenerateForBots(g);
      if !ok {
        return;
      }
      ok := GenerateForPlatform(g, Webhook);
      if !ok {
        return;
      }
      ok := GenerateForPlatform(g, Elasticsearch);
      if !ok {
        return;
      }
      ok := GenerateForPlatform(g, PagerDuty);
    }

    /** Succeeds exactly when everything bound can be configured; then exactly the bound flavours are configured. */
    method GenerateConfigs() returns (ok: bool)
      requires Valid() && done == {}
      modifies this
      ensures ok <==> Serialisable(cfg, marshal)
      ensures ok ==> Valid() && forall f :: f in done <==> Bound(cfg, f.source, f.interactive)
    {
      SerialisableIff(cfg, marshal);
      var rest := cfg.communications.Keys;
      while rest != {}
        invariant rest <= cfg.communications.Keys
        invariant Valid()
        invariant forall f :: f in done <==>
          exists name | name in cfg.communications.Keys - rest ::
            GroupBinds(cfg.communications[name], f.source, f.interactive)
      {
        var name :| name in rest;
        rest := rest - {name};
        var generated := GenerateForGroup(cfg.communications[name]);
        if !generated {
          ghost var s, i :| GroupBinds(cfg.communications[name], s, i) && !Configurable(cfg, marshal, s);
          assert Bound(cfg, s, i);
          return false;
        }
      }
      ghost var platforms := done;
      var actions := cfg.actions.Keys;
      while actions != {}
        invariant actions <= cfg.actions.Keys
        invariant Valid()
        invariant forall f :: f in done <==>
          f in platforms
          || (!f.interactive && exists name | name in cfg.actions.Keys - actions ::
                cfg.actions[name].enabled && f.source in cfg.actions[name].sources)
      {
        var name :| name in actions;
        actions := actions - {name};
        if !cfg.actions[name].enabled {
          continue;
        }
        var generated := GenerateSourceConfigs(false, cfg.actions[name].sources);
        if !generated {
          ghost var s :| s in cfg.actions[name].sources && !Configurable(cfg, marshal, s);
          assert Bound(cfg, s, false);
          return false;
        }
      }
      forall s, i | Bound(cfg, s, i) ensures Configurable(cfg, marshal, s) {
        CalledIsConfigurable(cfg, marshal, calls, Flavour(s, i));
      }
      return true;
    }

    /** Asks the dispatcher to open the stream; whether that works is up to the plugin. */
    method Dispatch(dispatch: PluginDispatch) returns (ok: bool)
    {
      ok := *;
    }

    method ScheduleKey(pluginFilter: string, configKey: string) returns (ok: bool)
      requires openedStreams.Valid() && configKey in dispatchConfig
      modifies openedStreams
      ensures openedStreams.Valid()
        && Extended(dispatchConfig, old(openedStreams.log), openedStreams.log, pluginFilter, {configKey})
      ensures ok ==> forall p | p in dispatchConfig[configKey] && Passes(pluginFilter, p) ::
        Open(openedStreams.log, p, configKey)
    {
      ghost var before := openedStreams.log;
      var sourceConfig := dispatchConfig[configKey];
      var rest := sourceConfig.Keys;
      while rest != {}
        invariant rest <= sourceConfig.Keys
        invariant openedStreams.Valid()
          && Extended(dispatchConfig, before, openedStreams.log, pluginFilter, {configKey})
        invariant forall p | p in sourceConfig.Keys - rest && Passes(pluginFilter, p) ::
          Open(openedStreams.log, p, configKey)
      {
        var pluginName :| pluginName in rest;
        rest := rest - {pluginName};
        if pluginFilter != EMPTY_PLUGIN_FILTER && pluginFilter != pluginName {
          continue;
        }
        var started := openedStreams.IsStartedStreamWithConfiguration(pluginName, configKey);
        if started {
          continue;
        }
        var dispatched := Dispatch(sourceConfig[pluginName]);
        if !dispatched {
          return false;
        }
        ghost var log := openedStreams.log;
        openedStreams.ReportStartedStreamWithConfiguration(pluginName, configKey);
        forall p, k { OpenNext(log, Dispatched(pluginName, configKey), p, k); }
        ExtendedNext(dispatchConfig, before, log, pluginFilter, {configKey}, pluginName, configKey);
      }
      return true;
    }

    /** Opens every planned stream that passes the filter and is not open, in the order of the configuration keys. */
    method Schedule(pluginFilter: string) returns (ok: bool)
      requires openedStreams.Valid()
      modifies openedStreams
      ensures openedStreams.Valid()
      ensures Extended(dispatchConfig, old(openedStreams.log), openedStreams.log, pluginFilter, dispatchConfig.Keys)
      ensures ok ==> forall p, k :: Open(openedStreams.log, p, k) <==>
        Open(old(openedStreams.log), p, k) || (Planned(dispatchConfig, p, k) && Passes(pluginFilter, p))
    {
      ghost var before := openedStreams.log;
      var sortedKeys := SortKeys(dispatchConfig.Keys);
      ghost var visited: set<string> := {};
      for i := 0 to |sortedKeys|
        invariant openedStreams.Valid()
        invariant visited == set k | k in sortedKeys[..i]
        invariant Extended(dispatchConfig, before, openedStreams.log, pluginFilter, visited)
        invariant forall p, k | k in visited && Planned(dispatchConfig, p, k) && Passes(pluginFilter, p) ::
          Open(openedStreams.log, p, k)
      {
        var configKey := sortedKeys[i];
        assert configKey in sortedKeys;
        ghost var log := openedStreams.log;
        var scheduled := ScheduleKey(pluginFilter, configKey);
        forall k | k in visited ensures Before(k, configKey) {
          var j :| 0 <= j < i && sortedKeys[j] == k;
        }
        ExtendedTwice(dispatchConfig, before, log, openedStreams.log, pluginFilter, visited, configKey);
        visited := visited + {configKey};
        assert sortedKeys[..i + 1] == sortedKeys[..i] + [configKey];
        ExtendedWider(dispatchConfig, before, openedStreams.log, pluginFilter, visited);
        if !scheduled {
          return false;
        }
        ExtendedOpens(dispatchConfig, log, openedStreams.log, pluginFilter, {configKey});
      }
      assert sortedKeys[..|sortedKeys|] == sortedKeys;
      assert visited == dispatchConfig.Keys;
      ExtendedOpens(dispatchConfig, before, openedStreams.log, pluginFilter, visited);
      return true;
    }

    /** A restarted plugin loses its streams and gets them opened again; streams of other plugins are not touched. */
    method HandleRestart(pluginName: string) returns (ok: bool)
      requires openedStreams.Valid() && pluginName != EMPTY_PLUGIN_FILTER
      modifies openedStreams
      ensures openedStreams.Valid()
      ensures forall p, k | p != pluginName :: Open(openedStreams.log, p, k) <==> Open(old(openedStreams.log), p, k)
      ensures ok ==> forall k :: Open(openedStreams.log, pluginName, k) <==> Planned(dispatchConfig, pluginName, k)
      ensures forall k | Open(openedStreams.log, pluginName, k) :: Planned(dispatchConfig, pluginName, k)
    {
      ghost var before := openedStreams.log;
      openedStreams.DeleteAllStartedStreamsForPlugin(pluginName);
      ghost var log := openedStreams.log;
      forall p, k { OpenNext(before, Restarted(pluginName), p, k); }
      ok := Schedule(pluginName);
      ExtendedOpens(dispatchConfig, log, openedStreams.log, pluginName, dispatchConfig.Keys);
    }

    /** Configures and opens everything that is bound. */
    method Start() returns (ok: bool)
      requires Valid() && done == {} && openedStreams.Valid() && forall p, k :: !Open(openedStreams.log, p, k)
      modifies this, openedStreams
      ensures openedStreams.Valid()
      ensures ok ==> Valid() && (forall f :: f in done <==> Bound(cfg, f.source, f.interactive))
      ensures ok ==> forall p, k :: Open(openedStreams.log, p, k) <==> Planned(dispatchConfig, p, k)
    {
      ok := GenerateConfigs();
      if ok {
        ok := Schedule(EMPTY_PLUGIN_FILTER);
      }
    }
  }

  const EMPTY_PLUGIN_FILTER := ""

  predicate Passes(pluginFilter: string, plugin: string) {
    pluginFilter == EMPTY_PLUGIN_FILTER || pluginFilter == plugin
  }

  predicate Planned(dispatch: DispatchConfig, plugin: string, key: string) {
    key in dispatch && plugin in dispatch[key]
  }

  /** The log grew by dispatches of planned streams with these keys that pass the filter, ordered by key. */
  ghost predicate Extended(dispatch: DispatchConfig, before: seq<StreamEvent>, after: seq<StreamEvent>,
                           pluginFilter: string, keys: set<string>) {
    && before <= after
    && (forall i | |before| <= i < |after| :: after[i].Dispatched? && after[i].key in keys
          && Planned(dispatch, after[i].plugin, after[i].key) && Passes(pluginFilter, after[i].plugin))
    && (forall i, j | |before| <= i < j < |after| :: after[i].key == after[j].key || Before(after[i].key, after[j].key))
  }

  lemma ExtendedNext(dispatch: DispatchConfig, before: seq<StreamEvent>, after: seq<StreamEvent>, pluginFilter: string,
                     keys: set<string>, plugin: string, key: string)
    requires Extended(dispatch, before, after, pluginFilter, keys) && keys == {key}
    requires Planned(dispatch, plugin, key) && Passes(pluginFilter, plugin)
    ensures Extended(dispatch, before, after + [Dispatched(plugin, key)], pluginFilter, keys)
  {
  }

  lemma ExtendedTwice(dispatch: DispatchConfig, first: seq<StreamEvent>, second: seq<StreamEvent>,
                      third: seq<StreamEvent>, pluginFilter: string, keys: set<string>, key: string)
    requires Extended(dispatch, first, second, pluginFilter, keys)
      && Extended(dispatch, second, third, pluginFilter, {key})
    requires forall k | k in keys :: Before(k, key)
    ensures Extended(dispatch, first, third, pluginFilter, keys + {key})
  {
    assert forall i | |first| <= i < |second| :: third[i] == second[i];
  }

  lemma ExtendedWider(dispatch: DispatchConfig, before: seq<StreamEvent>, after: seq<StreamEvent>, pluginFilter: string,
                      keys: set<string>)
    requires Extended(dispatch, before, after, pluginFilter, keys)
    ensures Extended(dispatch, before, after, pluginFilter, dispatch.Keys)
  {
  }

  lemma {:induction false} ExtendedOpens(dispatch: DispatchConfig, before: seq<StreamEvent>, after: seq<StreamEvent>,
                                         pluginFilter: string, keys: set<string>)
    requires Extended(dispatch, before, after, pluginFilter, keys)
    ensures forall p, k :: Open(before, p, k) ==> Open(after, p, k)
    ensures forall p, k :: Open(after, p, k) ==>
      Open(before, p, k) || (Planned(dispatch, p, k) && Passes(pluginFilter, p))
    decreases |after|
  {
    if |before| < |after| {
      var init, last := after[..|after| - 1], after[|after| - 1];
      assert after == init + [last];
      ExtendedOpens(dispatch, before, init, pluginFilter, keys);
      forall p, k { OpenNext(init, last, p, k); }
    } else {
      assert before == after;
    }
  }

  ghost predicate PlatformNeeds(g: Communications, platform: Platform, f: Flavour) {
    PlatformBindsSource(g, platform, f.source) && platform.IsInteractive() == f.interactive
  }

  ghost predicate BotsNeed(g: Communications, f: Flavour) {
    || PlatformNeeds(g, CloudSlack, f)
    || PlatformNeeds(g, SocketSlack, f)
    || PlatformNeeds(g, Mattermost, f)
    || PlatformNeeds(g, CloudTeams, f)
    || PlatformNeeds(g, Discord, f)
  }

  lemma GroupBindsCases(g: Communications, f: Flavour)
    ensures GroupBinds(g, f.source, f.interactive) <==>
      || BotsNeed(g, f)
      || PlatformNeeds(g, Webhook, f)
      || PlatformNeeds(g, Elasticsearch, f)
      || PlatformNeeds(g, PagerDuty, f)
  {
  }
}
