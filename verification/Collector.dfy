/** Collecting the plugins that are enabled and bound: these are the ones the plugin manager launches. */
module Collector {
  import opened AgentConfig

  /** Everything bound so far. */
  datatype Names = Names(executors: set<string>, sources: set<string>)

  ghost predicate Added(before: Names, after: Names, executors: string -> bool, sources: string -> bool) {
    && (forall x :: x in after.executors <==> x in before.executors || executors(x))
    && (forall x :: x in after.sources <==> x in before.sources || sources(x))
  }

  function Listed(names: seq<string>): set<string> {
    set x | x in names
  }

  method Collect(before: Names, enabled: bool, channels: Channels) returns (after: Names)
    ensures Added(before, after, x => enabled && ChannelsBindExecutor(channels, x),
                  x => enabled && ChannelsBindSource(channels, x))
  {
    after := before;
    if !enabled {
      return;
    }
    var rest := channels.Keys;
    while rest != {}
      invariant rest <= channels.Keys
      invariant forall x :: x in after.executors <==>
        x in before.executors || exists name | name in channels.Keys - rest :: x in channels[name].executors
      invariant forall x :: x in after.sources <==>
        x in before.sources || exists name | name in channels.Keys - rest :: x in channels[name].sources
    {
      var name :| name in rest;
      rest := rest - {name};
      after := Names(after.executors + Listed(channels[name].executors),
                     after.sources + Listed(channels[name].sources));
    }
  }

  method CollectTeams(before: Names, teams: TeamsPlatform) returns (after: Names)
    ensures Added(before, after,
      x => teams.enabled && exists i | 0 <= i < |teams.teams| :: ChannelsBindExecutor(teams.teams[i], x),
      x => teams.enabled && exists i | 0 <= i < |teams.teams| :: ChannelsBindSource(teams.teams[i], x))
  {
    after := before;
    if teams.enabled {
      for i := 0 to |teams.teams|
        invariant Added(before, after,
          x => exists j | 0 <= j < i :: ChannelsBindExecutor(teams.teams[j], x),
          x => exists j | 0 <= j < i :: ChannelsBindSource(teams.teams[j], x))
      {
        after := Collect(after, true, teams.teams[i]);
      }
    }
  }

  method CollectIndices(before: Names, platform: IndexPlatform) returns (after: Names)
    ensures Added(before, after, x => false,
      x => platform.enabled && exists name | name in platform.indices :: x in platform.indices[name])
  {
    after := before;
    if platform.enabled {
      var rest := platform.indices.Keys;
      while rest != {}
        invariant rest <= platform.indices.Keys && after.executors == before.executors
        invariant forall x :: x in after.sources <==>
          x in before.sources || exists name | name in platform.indices.Keys - rest :: x in platform.indices[name]
      {
        var name :| name in rest;
        rest := rest - {name};
        after := after.(sources := after.sources + Listed(platform.indices[name]));
      }
    }
  }

  lemma SomePlatform(g: Communications, x: string)
    ensures (exists p: Platform :: PlatformBindsExecutor(g, p, x)) <==>
      || PlatformBindsExecutor(g, SocketSlack, x) || PlatformBindsExecutor(g, CloudSlack, x)
        || PlatformBindsExecutor(g, Mattermost, x)
      || PlatformBindsExecutor(g, CloudTeams, x) || PlatformBindsExecutor(g, Discord, x)
    ensures (exists p: Platform :: PlatformBindsSource(g, p, x)) <==>
      || PlatformBindsSource(g, SocketSlack, x) || PlatformBindsSource(g, CloudSlack, x)
        || PlatformBindsSource(g, Mattermost, x)
      || PlatformBindsSource(g, CloudTeams, x) || PlatformBindsSource(g, Discord, x)
        || PlatformBindsSource(g, Webhook, x)
      || PlatformBindsSource(g, Elasticsearch, x) || PlatformBindsSource(g, PagerDuty, x)
  {
  }

  method CollectBots(before: Names, g: Communications) returns (after: Names)
    ensures forall x :: x in after.executors <==>
      || x in before.executors
      || PlatformBindsExecutor(g, SocketSlack, x) || PlatformBindsExecutor(g, CloudSlack, x)
        || PlatformBindsExecutor(g, Mattermost, x)
      || PlatformBindsExecutor(g, CloudTeams, x) || PlatformBindsExecutor(g, Discord, x)
    ensures forall x :: x in after.sources <==>
      || x in before.sources
      || PlatformBindsSource(g, SocketSlack, x) || PlatformBindsSource(g, CloudSlack, x)
        || PlatformBindsSource(g, Mattermost, x)
      || PlatformBindsSource(g, CloudTeams, x) || PlatformBindsSource(g, Discord, x)
  {
    after := Collect(before, g.socketSlack.enabled, g.socketSlack.channels);
    after := Collect(after, g.cloudSlack.enabled, g.cloudSlack.channels);
    after := Collect(after, g.mattermost.enabled, g.mattermost.channels);
    after := CollectTeams(after, g.cloudTeams);
    after := Collect(after, g.discord.enabled, g.discord.channels);
  }

  method CollectGroup(before: Names, g: Communications) returns (after: Names)
    ensures forall x :: x in after.executors <==>
      x in before.executors || exists p: Platform :: PlatformBindsExecutor(g, p, x)
    ensures forall x :: x in after.sources <==>
      x in before.sources || exists p: Platform :: PlatformBindsSource(g, p, x)
  {
    after := CollectBots(before, g);
    if g.webhook.enabled {
      after := after.(sources := after.sources + Listed(g.webhook.sources));
    }
    after := CollectIndices(after, g.elasticsearch);
    if g.pagerDuty.enabled {
      after := after.(sources := after.sources + Listed(g.pagerDuty.sources));
    }
    forall x { SomePlatform(g, x); }
  }

  /** A source is bound for some flavour. */
  ghost predicate BoundSource(cfg: Config, source: string) {
    Bound(cfg, source, true) || Bound(cfg, source, false)
  }

  method CollectBound(cfg: Config) returns (bound: Names)
    ensures forall x :: x in bound.executors <==> BoundExecutor(cfg, x)
    ensures forall x :: x in bound.sources <==> BoundSource(cfg, x)
  {
    bound := Names({}, {});
    var rest := cfg.communications.Keys;
    while rest != {}
      invariant rest <= cfg.communications.Keys
      invariant forall x :: x in bound.executors <==>
        exists name, p: Platform | name in cfg.communications.Keys - rest ::
          PlatformBindsExecutor(cfg.communications[name], p, x)
      invariant forall x :: x in bound.sources <==>
        exists name, p: Platform | name in cfg.communications.Keys - rest ::
          PlatformBindsSource(cfg.communications[name], p, x)
    {
      var name :| name in rest;
      rest := rest - {name};
      bound := CollectGroup(bound, cfg.communications[name]);
    }
    ghost var platforms := bound;
    var actions := cfg.actions.Keys;
    while actions != {}
      invariant actions <= cfg.actions.Keys
      invariant forall x :: x in bound.executors <==>
        x in platforms.executors || exists name | name in cfg.actions.Keys - actions ::
          cfg.actions[name].enabled && x in cfg.actions[name].executors
      invariant forall x :: x in bound.sources <==>
        x in platforms.sources || exists name | name in cfg.actions.Keys - actions ::
          cfg.actions[name].enabled && x in cfg.actions[name].sources
    {
      var name :| name in actions;
      actions := actions - {name};
      if cfg.actions[name].enabled {
        bound := Names(bound.executors + Listed(cfg.actions[name].executors),
                       bound.sources + Listed(cfg.actions[name].sources));
      }
    }
    forall x ensures x in bound.sources <==> BoundSource(cfg, x) {
      if name, p: Platform :| name in cfg.communications && PlatformBindsSource(cfg.communications[name], p, x) {
        assert GroupBinds(cfg.communications[name], x, p.IsInteractive());
      }
    }
  }

  ghost predicate UsedSource(cfg: Config, plugin: string) {
    exists group | group in cfg.sources && plugin in cfg.sources[group].plugins ::
      cfg.sources[group].plugins[plugin].enabled && BoundSource(cfg, group)
  }

  ghost predicate UsedExecutor(cfg: Config, plugin: string) {
    exists group | group in cfg.executors && plugin in cfg.executors[group] ::
      cfg.executors[group][plugin].enabled && BoundExecutor(cfg, group)
  }

  method AddUsed(before: set<string>, plugins: map<string, Plugin>, isBound: bool) returns (after: set<string>)
    ensures after == before + if isBound then EnabledPlugins(plugins) else {}
  {
    after := before;
    var rest := plugins.Keys;
    while rest != {}
      invariant rest <= plugins.Keys
      invariant forall p :: p in after <==> p in before || (p in plugins.Keys - rest && plugins[p].enabled && isBound)
    {
      var p :| p in rest;
      rest := rest - {p};
      if !plugins[p].enabled {
        continue;
      }
      if !isBound {
        continue;
      }
      after := after + {p};
    }
  }

  method GetAllEnabledAndUsedPlugins(cfg: Config) returns (executors: set<string>, sources: set<string>)
    ensures forall p :: p in executors <==> UsedExecutor(cfg, p)
    ensures forall p :: p in sources <==> UsedSource(cfg, p)
  {
    var bound := CollectBound(cfg);
    executors, sources := {}, {};
    var rest := cfg.executors.Keys;
    while rest != {}
      invariant rest <= cfg.executors.Keys
      invariant forall p :: p in executors <==> exists group | group in cfg.executors.Keys - rest ::
        p in EnabledPlugins(cfg.executors[group]) && BoundExecutor(cfg, group)
    {
      var group :| group in rest;
      rest := rest - {group};
      executors := AddUsed(executors, cfg.executors[group], group in bound.executors);
    }
    rest := cfg.sources.Keys;
    while rest != {}
      invariant rest <= cfg.sources.Keys
      invariant forall p :: p in sources <==> exists group | group in cfg.sources.Keys - rest ::
        p in EnabledPlugins(cfg.sources[group].plugins) && BoundSource(cfg, group)
    {
      var group :| group in rest;
      rest := rest - {group};
      sources := AddUsed(sources, cfg.sources[group].plugins, group in bound.sources);
    }
  }
}
