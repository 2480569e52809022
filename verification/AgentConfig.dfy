/** The agent's configuration: what communication platforms and actions bind, and the plugins that can be bound. */
module AgentConfig {
  datatype BotBindings = BotBindings(sources: seq<string>, executors: seq<string>)

  type Channels = map<string, BotBindings>

  datatype ChannelPlatform = ChannelPlatform(enabled: bool, channels: Channels)
  datatype TeamsPlatform = TeamsPlatform(enabled: bool, teams: seq<Channels>)
  datatype SinkPlatform = SinkPlatform(enabled: bool, sources: seq<string>)
  datatype IndexPlatform = IndexPlatform(enabled: bool, indices: map<string, seq<string>>)

  datatype Communications = Communications(
    socketSlack: ChannelPlatform, cloudSlack: ChannelPlatform, mattermost: ChannelPlatform, discord: ChannelPlatform,
    cloudTeams: TeamsPlatform, webhook: SinkPlatform, elasticsearch: IndexPlatform, pagerDuty: SinkPlatform)

  datatype Action = Action(enabled: bool, sources: seq<string>, executors: seq<string>)

  datatype Plugin = Plugin(enabled: bool, config: string, context: string)

  datatype SourceGroup = SourceGroup(displayName: string, plugins: map<string, Plugin>)

  datatype Config = Config(communications: map<string, Communications>, actions: map<string, Action>,
                           sources: map<string, SourceGroup>, executors: map<string, map<string, Plugin>>)

  datatype Platform =
    | SocketSlack | CloudSlack | Mattermost | Discord | CloudTeams | Teams
    | Webhook | Elasticsearch | PagerDuty
  {
    predicate IsInteractive() { SocketSlack? || CloudSlack? || CloudTeams? }

    predicate IsSink() { Webhook? || Elasticsearch? || PagerDuty? }
  }

  // ---- what is bound ---------------------------------------------------------

  ghost predicate ChannelsBindSource(channels: Channels, source: string) {
    exists name | name in channels :: source in channels[name].sources
  }

  ghost predicate ChannelsBindExecutor(channels: Channels, executor: string) {
    exists name | name in channels :: executor in channels[name].executors
  }

  /** An enabled platform of the group binds the source. */
  ghost predicate PlatformBindsSource(g: Communications, p: Platform, source: string) {
    match p
    case SocketSlack => g.socketSlack.enabled && ChannelsBindSource(g.socketSlack.channels, source)
    case CloudSlack => g.cloudSlack.enabled && ChannelsBindSource(g.cloudSlack.channels, source)
    case Mattermost => g.mattermost.enabled && ChannelsBindSource(g.mattermost.channels, source)
    case Discord => g.discord.enabled && ChannelsBindSource(g.discord.channels, source)
    case CloudTeams => g.cloudTeams.enabled && exists i | 0 <= i < |g.cloudTeams.teams| ::
      ChannelsBindSource(g.cloudTeams.teams[i], source)
    case Teams => false
    case Webhook => g.webhook.enabled && source in g.webhook.sources
    case Elasticsearch =>
      g.elasticsearch.enabled && exists name | name in g.elasticsearch.indices ::
        source in g.elasticsearch.indices[name]
    case PagerDuty => g.pagerDuty.enabled && source in g.pagerDuty.sources
  }

  ghost predicate PlatformBindsExecutor(g: Communications, p: Platform, executor: string) {
    match p
    case SocketSlack => g.socketSlack.enabled && ChannelsBindExecutor(g.socketSlack.channels, executor)
    case CloudSlack => g.cloudSlack.enabled && ChannelsBindExecutor(g.cloudSlack.channels, executor)
    case Mattermost => g.mattermost.enabled && ChannelsBindExecutor(g.mattermost.channels, executor)
    case Discord => g.discord.enabled && ChannelsBindExecutor(g.discord.channels, executor)
    case CloudTeams =>
      g.cloudTeams.enabled && exists i | 0 <= i < |g.cloudTeams.teams| ::
        ChannelsBindExecutor(g.cloudTeams.teams[i], executor)
    case _ => false
  }

  ghost predicate ActionBindsSource(cfg: Config, source: string) {
    exists name | name in cfg.actions :: cfg.actions[name].enabled && source in cfg.actions[name].sources
  }

  ghost predicate ActionBindsExecutor(cfg: Config, executor: string) {
    exists name | name in cfg.actions :: cfg.actions[name].enabled && executor in cfg.actions[name].executors
  }

  ghost predicate GroupBinds(g: Communications, source: string, interactive: bool) {
    exists p: Platform :: PlatformBindsSource(g, p, source) && p.IsInteractive() == interactive
  }

  /** Some enabled platform or action needs the source in the given flavour; actions need the plain one. */
  ghost predicate Bound(cfg: Config, source: string, interactive: bool) {
    || (exists name | name in cfg.communications :: GroupBinds(cfg.communications[name], source, interactive))
    || (!interactive && ActionBindsSource(cfg, source))
  }

  ghost predicate BoundExecutor(cfg: Config, executor: string) {
    || (exists name, p: Platform | name in cfg.communications ::
          PlatformBindsExecutor(cfg.communications[name], p, executor))
    || ActionBindsExecutor(cfg, executor)
  }

  function EnabledPlugins(plugins: map<string, Plugin>): set<string> {
    set p | p in plugins && plugins[p].enabled
  }

  function EnabledSources(cfg: Config, source: string): set<string> {
    if source in cfg.sources then EnabledPlugins(cfg.sources[source].plugins) else {}
  }

  ghost predicate ChannelsListExecutor(p: ChannelPlatform, executor: string) {
    p.enabled && exists name | name in p.channels :: executor in p.channels[name].executors
  }

  /** A bot lists the executor; sinks run no commands. */
  ghost predicate ListedExecutor(g: Communications, executor: string) {
    || ChannelsListExecutor(g.socketSlack, executor)
    || ChannelsListExecutor(g.cloudSlack, executor)
    || ChannelsListExecutor(g.mattermost, executor)
    || ChannelsListExecutor(g.discord, executor)
    || (g.cloudTeams.enabled && exists i, name | 0 <= i < |g.cloudTeams.teams| && name in g.cloudTeams.teams[i] ::
          executor in g.cloudTeams.teams[i][name].executors)
  }

  lemma GroupBindsExecutorMeaning(g: Communications, executor: string)
    ensures (exists p: Platform :: PlatformBindsExecutor(g, p, executor)) <==> ListedExecutor(g, executor)
  {
    if ListedExecutor(g, executor) {
      if ChannelsListExecutor(g.socketSlack, executor) {
        assert PlatformBindsExecutor(g, SocketSlack, executor);
      } else if ChannelsListExecutor(g.cloudSlack, executor) {
        assert PlatformBindsExecutor(g, CloudSlack, executor);
      } else if ChannelsListExecutor(g.mattermost, executor) {
        assert PlatformBindsExecutor(g, Mattermost, executor);
      } else if ChannelsListExecutor(g.discord, executor) {
        assert PlatformBindsExecutor(g, Discord, executor);
      } else {
        var i, name :| 0 <= i < |g.cloudTeams.teams| && name in g.cloudTeams.teams[i]
          && executor in g.cloudTeams.teams[i][name].executors;
        assert ChannelsBindExecutor(g.cloudTeams.teams[i], executor);
        assert PlatformBindsExecutor(g, CloudTeams, executor);
      }
    }
  }

  /** Which bots and actions need an executor. */
  lemma BoundExecutorMeaning(cfg: Config, executor: string)
    ensures BoundExecutor(cfg, executor) <==>
      || (exists name | name in cfg.communications :: ListedExecutor(cfg.communications[name], executor))
      || (exists name | name in cfg.actions :: cfg.actions[name].enabled && executor in cfg.actions[name].executors)
  {
    forall name | name in cfg.communications
      ensures (exists p: Platform :: PlatformBindsExecutor(cfg.communications[name], p, executor))
        <==> ListedExecutor(cfg.communications[name], executor)
    {
      GroupBindsExecutorMeaning(cfg.communications[name], executor);
    }
  }

  ghost predicate ChannelsList(p: ChannelPlatform, source: string) {
    p.enabled && exists name | name in p.channels :: source in p.channels[name].sources
  }

  ghost predicate TeamsList(p: TeamsPlatform, source: string) {
    p.enabled && exists i, name | 0 <= i < |p.teams| && name in p.teams[i] :: source in p.teams[i][name].sources
  }

  /** An interactive platform lists the source. */
  ghost predicate ListedInteractively(g: Communications, source: string) {
    || ChannelsList(g.cloudSlack, source)
    || ChannelsList(g.socketSlack, source)
    || TeamsList(g.cloudTeams, source)
  }

  /** Another bot or a sink lists the source. */
  ghost predicate ListedPlainly(g: Communications, source: string) {
    || ChannelsList(g.mattermost, source)
    || ChannelsList(g.discord, source)
    || (g.webhook.enabled && source in g.webhook.sources)
    || (g.pagerDuty.enabled && source in g.pagerDuty.sources)
    || (g.elasticsearch.enabled && exists index | index in g.elasticsearch.indices ::
          source in g.elasticsearch.indices[index])
  }

  lemma GroupBindsMeaning(g: Communications, source: string)
    ensures GroupBinds(g, source, true) <==> ListedInteractively(g, source)
    ensures GroupBinds(g, source, false) <==> ListedPlainly(g, source)
  {
    assert PlatformBindsSource(g, CloudSlack, source) <==> ChannelsList(g.cloudSlack, source);
    assert PlatformBindsSource(g, SocketSlack, source) <==> ChannelsList(g.socketSlack, source);
    assert PlatformBindsSource(g, Mattermost, source) <==> ChannelsList(g.mattermost, source);
    assert PlatformBindsSource(g, Discord, source) <==> ChannelsList(g.discord, source);
    assert PlatformBindsSource(g, CloudTeams, source) <==> TeamsList(g.cloudTeams, source) by {
      if TeamsList(g.cloudTeams, source) {
        var i, name :| 0 <= i < |g.cloudTeams.teams| && name in g.cloudTeams.teams[i]
          && source in g.cloudTeams.teams[i][name].sources;
        assert ChannelsBindSource(g.cloudTeams.teams[i], source);
      }
    }
    assert PlatformBindsSource(g, Webhook, source) ==> ListedPlainly(g, source);
    assert PlatformBindsSource(g, PagerDuty, source) ==> ListedPlainly(g, source);
    assert PlatformBindsSource(g, Elasticsearch, source) ==> ListedPlainly(g, source);
  }

  /** Which platforms and actions need a source in which flavour. */
  lemma BoundMeaning(cfg: Config, source: string)
    ensures Bound(cfg, source, true) <==>
      exists name | name in cfg.communications :: ListedInteractively(cfg.communications[name], source)
    ensures Bound(cfg, source, false) <==>
      || (exists name | name in cfg.communications :: ListedPlainly(cfg.communications[name], source))
      || (exists name | name in cfg.actions :: cfg.actions[name].enabled && source in cfg.actions[name].sources)
  {
    forall name | name in cfg.communications
      ensures GroupBinds(cfg.communications[name], source, true)
        <==> ListedInteractively(cfg.communications[name], source)
      ensures GroupBinds(cfg.communications[name], source, false) <==> ListedPlainly(cfg.communications[name], source)
    {
      GroupBindsMeaning(cfg.communications[name], source);
    }
  }
}
