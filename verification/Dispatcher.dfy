/**
 The dispatcher hands stream events to communication platforms. Together with the scheduler it has to reach
 every platform that binds a source, and together with the collector it has to find every plugin launched.
 */
module Dispatcher {
  import opened Options
  import opened MapOrders
  import opened AgentConfig
  import opened Scheduling
  import opened Collector

  datatype Notifier = Notifier(platform: Platform, name: string)

  class EventDispatcher {
    var markdownNotifiers: seq<Notifier>
    var interactiveNotifiers: seq<Notifier>
    var sinkNotifiers: seq<Notifier>

    /** Every bot is in exactly one of the two lists, by its platform's interactivity. */
    ghost predicate Serves(bots: set<Notifier>, sinks: seq<Notifier>)
      reads this
    {
      && (forall n :: n in interactiveNotifiers <==> n in bots && n.platform.IsInteractive())
      && (forall n :: n in markdownNotifiers <==> n in bots && !n.platform.IsInteractive())
      && sinkNotifiers == sinks
    }

    constructor (notifiers: map<string, Notifier>, sinks: seq<Notifier>)
      ensures Serves(notifiers.Values, sinks)
      ensures |interactiveNotifiers| + |markdownNotifiers| == |notifiers|
    {
      var interactive: seq<Notifier>, markdown: seq<Notifier> := [], [];
      var rest := notifiers.Keys;
      while rest != {}
        invariant rest <= notifiers.Keys
        invariant forall n: Notifier :: n in interactive <==>
          n.platform.IsInteractive() && exists k | k in notifiers.Keys - rest :: notifiers[k] == n
        invariant forall n: Notifier :: n in markdown <==>
          !n.platform.IsInteractive() && exists k | k in notifiers.Keys - rest :: notifiers[k] == n
        invariant |interactive| + |markdown| + |rest| == |notifiers|
      {
        var k :| k in rest;
        rest := rest - {k};
        if notifiers[k].platform.IsInteractive() {
          interactive := interactive + [notifiers[k]];
          continue;
        }
        markdown := markdown + [notifiers[k]];
      }
      interactiveNotifiers, markdownNotifiers, sinkNotifiers := interactive, markdown, sinks;
    }

    function GetBotNotifiers(interactive: bool): seq<Notifier>
      reads this
    {
      if interactive then interactiveNotifiers else markdownNotifiers
    }

    /** Sinks never see interactive events. */
    function GetSinkNotifiers(interactive: bool): seq<Notifier>
      reads this
    {
      if interactive then [] else sinkNotifiers
    }
  }

  /** Configurations have been generated for exactly what is bound. */
  ghost predicate Complete(cfg: Config, marshal: Marshal, plan: Plan, done: set<Flavour>) {
    && Generated(cfg, marshal, plan.dispatch, plan.started, done)
    && forall f :: f in done <==> Bound(cfg, f.source, f.interactive)
  }

  /** A started source is the one of this flavour and this plugin, with this configuration and name. */
  predicate RecordOf(plan: Plan, f: Flavour, plugin: string, config: string, displayName: string) {
    && f.source in plan.started && f.interactive in plan.started[f.source]
    && plan.started[f.source][f.interactive] == StartedSource(displayName, plugin, config, f.interactive)
  }

  /**
   The flavour has exactly one stream, of this plugin. It gets the plugin's serialised configuration and its context,
   under the names of its source, and is recorded with the same configuration.
   */
  predicate StreamOf(cfg: Config, marshal: Marshal, plan: Plan, f: Flavour, plugin: string) {
    var key := f.source + "_interactive/" + if f.interactive then "true" else "false";
    && f.source in cfg.sources && plugin in cfg.sources[f.source].plugins
    && key in plan.dispatch && plan.dispatch[key].Keys == {plugin}
    && var source, stream := cfg.sources[f.source], plan.dispatch[key][plugin];
    && stream.pluginName == plugin && stream.sourceName == f.source && stream.isInteractivitySupported == f.interactive
    && marshal(source.plugins[plugin].config) == Some(stream.pluginConfig)
    && stream.pluginContext == source.plugins[plugin].context
    && stream.sourceDisplayName == source.displayName
    && RecordOf(plan, f, plugin, stream.pluginConfig, source.displayName)
  }

  lemma ConfiguredStream(cfg: Config, marshal: Marshal, plan: Plan, f: Flavour) returns (plugin: string)
    requires Configured(cfg, marshal, plan.dispatch, plan.started, f)
    ensures plugin in EnabledSources(cfg, f.source)
    ensures StreamOf(cfg, marshal, plan, f, plugin)
  {
    plugin :| plugin in EnabledSources(cfg, f.source) && CanDispatch(cfg, marshal, f.source, plugin)
      && plan.dispatch[f.Key()] == map[plugin := DispatchOf(cfg, marshal, f, plugin)]
      && plan.started[f.source][f.interactive] == StartedOf(DispatchOf(cfg, marshal, f, plugin));
  }

  lemma CompleteStream(cfg: Config, marshal: Marshal, plan: Plan, done: set<Flavour>, f: Flavour)
    returns (plugin: string)
    requires Complete(cfg, marshal, plan, done) && Bound(cfg, f.source, f.interactive)
      && EnabledSources(cfg, f.source) != {}
    ensures plugin in EnabledSources(cfg, f.source) && StreamOf(cfg, marshal, plan, f, plugin)
  {
    assert f in done;
    plugin := ConfiguredStream(cfg, marshal, plan, f);
  }

  lemma PlatformBindsBound(cfg: Config, group: string, platform: Platform, source: string)
    requires group in cfg.communications && PlatformBindsSource(cfg.communications[group], platform, source)
    ensures Bound(cfg, source, platform.IsInteractive())
  {
    assert GroupBinds(cfg.communications[group], source, platform.IsInteractive());
  }

  /**
   Stream coverage: a platform that binds a source with an enabled plugin gets a stream of its own flavour, and the
   plugin recorded as started is the one dispatched.
   */
  lemma StreamCoverage(cfg: Config, marshal: Marshal, plan: Plan, done: set<Flavour>, group: string, platform: Platform,
                       f: Flavour)
    returns (plugin: string)
    requires Complete(cfg, marshal, plan, done)
    requires group in cfg.communications && PlatformBindsSource(cfg.communications[group], platform, f.source)
    requires f.interactive == platform.IsInteractive()
    requires EnabledSources(cfg, f.source) != {}
    ensures plugin in EnabledSources(cfg, f.source)
    ensures StreamOf(cfg, marshal, plan, f, plugin)
  {
    PlatformBindsBound(cfg, group, platform, f.source);
    plugin := CompleteStream(cfg, marshal, plan, done, f);
  }

  /** The notifier sees the events of the streams of this flavour. */
  predicate Receives(d: EventDispatcher, platform: Platform, name: string, interactive: bool)
    reads d
  {
    if platform.IsSink() then Notifier(platform, name) in d.GetSinkNotifiers(interactive)
    else Notifier(platform, name) in d.GetBotNotifiers(interactive)
  }

  /** Of the two flavours of a source only the platform's own one reaches it. */
  lemma ReachedByOwnFlavourOnly(d: EventDispatcher, bots: set<Notifier>, sinks: seq<Notifier>, platform: Platform,
                                name: string, interactive: bool)
    requires d.Serves(bots, sinks)
    requires Notifier(platform, name) in
      if platform in {Webhook, Elasticsearch, PagerDuty} then set n | n in sinks else bots
    ensures Receives(d, platform, name, interactive) <==>
      interactive == (platform in {SocketSlack, CloudSlack, CloudTeams})
  {
    if platform.IsSink() {
      assert !platform.IsInteractive();
    }
  }

  ghost predicate Dispatches(plan: Plan, plugin: string) {
    exists key :: Planned(plan.dispatch, plugin, key)
  }

  /** Every plugin the scheduler dispatches is one the manager launches. */
  lemma DispatchedIsUsed(cfg: Config, marshal: Marshal, plan: Plan, done: set<Flavour>, plugin: string)
    requires Complete(cfg, marshal, plan, done) && Dispatches(plan, plugin)
    ensures UsedSource(cfg, plugin)
  {
    var key :| Planned(plan.dispatch, plugin, key);
    var f :| f in done && f.Key() == key && EnabledSources(cfg, f.source) != {};
    assert Configured(cfg, marshal, plan.dispatch, plan.started, f);
    assert plugin in EnabledPlugins(cfg.sources[f.source].plugins) && BoundSource(cfg, f.source);
  }

  ghost predicate SoleInBoundGroup(cfg: Config, plugin: string) {
    exists group :: BoundSource(cfg, group) && EnabledSources(cfg, group) == {plugin}
  }

  lemma SolePluginIsDispatched(cfg: Config, marshal: Marshal, plan: Plan, done: set<Flavour>, plugin: string)
    requires Complete(cfg, marshal, plan, done) && SoleInBoundGroup(cfg, plugin)
    ensures Dispatches(plan, plugin)
  {
    var group :| BoundSource(cfg, group) && EnabledSources(cfg, group) == {plugin};
    var f := Flavour(group, Bound(cfg, group, true));
    assert f in done;
    assert Configured(cfg, marshal, plan.dispatch, plan.started, f);
    assert Planned(plan.dispatch, plugin, f.Key());
  }

  /** The runs of the loop over plugins are for exactly what is bound. */
  ghost predicate CallsComplete(cfg: Config, marshal: Marshal, calls: seq<Call>) {
    AllCallable(cfg, marshal, calls) && forall f :: f in FlavoursOf(calls) <==> Bound(cfg, f.source, f.interactive)
  }

  /** The same runs, with the plugins of each source iterated in other orders. */
  ghost predicate Reordered(calls: seq<Call>, other: seq<Call>) {
    |other| == |calls| && forall i | 0 <= i < |calls| :: other[i].flavour == calls[i].flavour
  }

  lemma ReorderedNext(calls: seq<Call>, before: seq<Call>, order: seq<string>)
    requires calls != [] && Reordered(calls[..|calls| - 1], before)
    ensures Reordered(calls, before + [Call(calls[|calls| - 1].flavour, order)])
  {
    forall i | 0 <= i < |before| ensures before[i].flavour == calls[i].flavour {
      assert calls[..|calls| - 1][i] == calls[i];
    }
  }

  lemma {:induction false} ReorderedFlavours(calls: seq<Call>, other: seq<Call>)
    requires Reordered(calls, other)
    ensures FlavoursOf(calls) == FlavoursOf(other)
  {
    if calls != [] {
      ReorderedFlavours(calls[..|calls| - 1], other[..|other| - 1]);
    }
  }

  lemma OtherChoice(enabled: set<string>, plugin: string) returns (other: string)
    requires enabled != {} && enabled != {plugin}
    ensures other in enabled && other != plugin
  {
    other :| other in enabled;
    if other == plugin {
      assert enabled == {plugin} || exists e :: e in enabled && e != plugin;
      other :| other in enabled && other != plugin;
    }
  }

  /** Some order of the plugins of a source does not end in the plugin, when that is not its only enabled one. */
  lemma OrderAvoiding(cfg: Config, marshal: Marshal, f: Flavour, plugin: string) returns (order: seq<string>)
    requires Configurable(cfg, marshal, f.source) && EnabledSources(cfg, f.source) != {plugin}
    ensures Callable(cfg, marshal, Call(f, order))
    ensures LastEnabled(cfg.sources[f.source].plugins, order) != Some(plugin)
  {
    var plugins := cfg.sources[f.source].plugins;
    if EnabledSources(cfg, f.source) == {} {
      order := AnyOrder(plugins.Keys);
      forall p | p in plugins ensures !plugins[p].enabled {
        assert p !in EnabledSources(cfg, f.source);
      }
    } else {
      var other := OtherChoice(EnabledSources(cfg, f.source), plugin);
      order := OrderTo(plugins.Keys, other);
    }
  }

  lemma AvoidedOnce(cfg: Config, marshal: Marshal, before: Plan, f: Flavour, order: seq<string>, plugin: string)
    requires Configurable(cfg, marshal, f.source) && LastEnabled(cfg.sources[f.source].plugins, order) != Some(plugin)
    requires forall key :: !Planned(before.dispatch, plugin, key)
    ensures forall key :: !Planned(LoopOver(cfg, marshal, before, f, order).dispatch, plugin, key)
  {
    LastEnabledWins(cfg, marshal, before, f, order);
    var last := LastEnabled(cfg.sources[f.source].plugins, order);
    if last.Some? {
      forall key { PlannedAfter(before, f, DispatchOf(cfg, marshal, f, last.value), plugin, key); }
    }
  }

  lemma PlannedAfter(plan: Plan, f: Flavour, d: PluginDispatch, plugin: string, key: string)
    requires d.pluginName != plugin
    ensures Planned(WithStream(plan, f, d).dispatch, plugin, key) ==> Planned(plan.dispatch, plugin, key)
  {
  }

  lemma {:induction false} CallsAvoiding(cfg: Config, marshal: Marshal, calls: seq<Call>, plugin: string)
    returns (other: seq<Call>)
    requires AllCallable(cfg, marshal, calls)
    requires forall i | 0 <= i < |calls| :: EnabledSources(cfg, calls[i].flavour.source) != {plugin}
    ensures Reordered(calls, other) && AllCallable(cfg, marshal, other)
    ensures forall key :: !Planned(PlanOf(cfg, marshal, other).dispatch, plugin, key)
  {
    other := [];
    if calls != [] {
      var init, last := calls[..|calls| - 1], calls[|calls| - 1];
      assert forall i | 0 <= i < |init| :: init[i] == calls[i];
      assert Callable(cfg, marshal, last);
      var before := CallsAvoiding(cfg, marshal, init, plugin);
      var order := OrderAvoiding(cfg, marshal, last.flavour, plugin);
      other := before + [Call(last.flavour, order)];
      PlanNext(cfg, marshal, before, Call(last.flavour, order));
      CallableNext(cfg, marshal, before, Call(last.flavour, order));
      ReorderedNext(calls, before, order);
      AvoidedOnce(cfg, marshal, PlanOf(cfg, marshal, before), last.flavour, order, plugin);
    }
  }

  lemma CompleteCalls(cfg: Config, marshal: Marshal, calls: seq<Call>)
    requires CallsComplete(cfg, marshal, calls)
    ensures Complete(cfg, marshal, PlanOf(cfg, marshal, calls), FlavoursOf(calls))
  {
    PlanIsGenerated(cfg, marshal, calls);
  }

  lemma SolePluginsSuffice(cfg: Config, marshal: Marshal, calls: seq<Call>, other: seq<Call>, plugin: string)
    requires CallsComplete(cfg, marshal, calls) && Reordered(calls, other) && AllCallable(cfg, marshal, other)
    requires forall p | UsedSource(cfg, p) :: SoleInBoundGroup(cfg, p)
    ensures Dispatches(PlanOf(cfg, marshal, other), plugin) <==> UsedSource(cfg, plugin)
  {
    ReorderedFlavours(calls, other);
    CompleteCalls(cfg, marshal, other);
    var plan := PlanOf(cfg, marshal, other);
    if UsedSource(cfg, plugin) {
      SolePluginIsDispatched(cfg, marshal, plan, FlavoursOf(other), plugin);
    }
    if Dispatches(plan, plugin) {
      DispatchedIsUsed(cfg, marshal, plan, FlavoursOf(other), plugin);
    }
  }

  lemma {:induction false} CalledFlavour(calls: seq<Call>, i: nat)
    requires i < |calls|
    ensures calls[i].flavour in FlavoursOf(calls)
  {
    if i < |calls| - 1 {
      CalledFlavour(calls[..|calls| - 1], i);
    }
  }

  lemma ReplacedPlugin(cfg: Config, marshal: Marshal, calls: seq<Call>, plugin: string) returns (other: seq<Call>)
    requires CallsComplete(cfg, marshal, calls) && UsedSource(cfg, plugin) && !SoleInBoundGroup(cfg, plugin)
    ensures Reordered(calls, other) && AllCallable(cfg, marshal, other)
      && !Dispatches(PlanOf(cfg, marshal, other), plugin)
  {
    forall i | 0 <= i < |calls| ensures EnabledSources(cfg, calls[i].flavour.source) != {plugin} {
      CalledFlavour(calls, i);
      assert BoundSource(cfg, calls[i].flavour.source);
    }
    other := CallsAvoiding(cfg, marshal, calls, plugin);
  }

  /**
   However the plugins of each source are iterated, the plugins dispatched are exactly the plugins launched, if and only
   if every launched plugin is the only enabled one of some bound group. With two enabled plugins in one group the last
   one iterated replaces the other.
   */
  lemma DispatchedAreUsedIff(cfg: Config, marshal: Marshal, calls: seq<Call>)
    requires CallsComplete(cfg, marshal, calls)
    ensures (forall other | Reordered(calls, other) && AllCallable(cfg, marshal, other) ::
               forall plugin :: Dispatches(PlanOf(cfg, marshal, other), plugin) <==> UsedSource(cfg, plugin))
      <==> (forall plugin | UsedSource(cfg, plugin) :: SoleInBoundGroup(cfg, plugin))
  {
    if forall plugin | UsedSource(cfg, plugin) :: SoleInBoundGroup(cfg, plugin) {
      forall other, plugin | Reordered(calls, other) && AllCallable(cfg, marshal, other)
        ensures Dispatches(PlanOf(cfg, marshal, other), plugin) <==> UsedSource(cfg, plugin)
      {
        SolePluginsSuffice(cfg, marshal, calls, other, plugin);
      }
    } else {
      var plugin :| UsedSource(cfg, plugin) && !SoleInBoundGroup(cfg, plugin);
      var other := ReplacedPlugin(cfg, marshal, calls, plugin);
    }
  }

  /** In particular they are the same when no bound group enables two plugins. */
  lemma OnePluginPerGroupSuffices(cfg: Config, plugin: string)
    requires forall group | BoundSource(cfg, group) :: |EnabledSources(cfg, group)| <= 1
    requires UsedSource(cfg, plugin)
    ensures SoleInBoundGroup(cfg, plugin)
  {
    var group :| group in cfg.sources && plugin in EnabledPlugins(cfg.sources[group].plugins)
      && BoundSource(cfg, group);
    var enabled := EnabledSources(cfg, group);
    assert plugin in enabled;
    assert |enabled - {plugin}| == |enabled| - 1;
    assert enabled - {plugin} == {};
    assert enabled == {plugin};
  }
}
