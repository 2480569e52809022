/**
 The Kubernetes source as a whole: every new stream is stored, the background process is stopped, and one router per
 kubeconfig is built from the clone of the store.
 */
module KubernetesSource {
  import opened Options
  import opened KubernetesConfig
  import opened ConfigurationStore
  import opened Routing
  import opened EventMatching

  type Clone = map<string, map<string, SourceConfig>>

  /** Histories that leave the same configurations in the same groups. */
  ghost predicate Equivalent(a: seq<Call>, b: seq<Call>) {
    Latest(a) == Latest(b) && forall kc, key :: EverStored(a, kc, key) <==> EverStored(b, kc, key)
  }

  /** Sources are stored under their own names, and the settings of all can be used. */
  ghost predicate WellStored(history: seq<Call>) {
    forall call | call in history :: call.sourceName == call.cfg.name && call.cfg.cfg.Usable()
  }

  /** The background process runs one router for each kubeconfig, built from the sources in its group. */
  ghost predicate RouterFor(tables: map<string, Table>, clone: Clone, kc: string) {
    kc in tables && kc in clone && (forall key | key in clone[kc] :: clone[kc][key].cfg.Usable())
      && Built(tables[kc], clone[kc])
  }

  ghost predicate Watches(tables: map<string, Table>, history: seq<Call>) {
    exists clone: Clone ::
      IsClone(clone, history) && tables.Keys == clone.Keys && forall kc | kc in tables :: RouterFor(tables, clone, kc)
  }

  lemma StoredAgain(history: seq<Call>, call: Call)
    requires call.Key() in Latest(history) && Latest(history)[call.Key()] == call.cfg
    ensures Equivalent(history + [call], history)
  {
    assert (history + [call])[..|history|] == history;
    LatestIsStored(history, call.Key());
    forall kc, key { EverStoredNext(history, call, kc, key); }
  }

  lemma LatestIsWellStored(history: seq<Call>, key: string)
    requires WellStored(history) && key in Latest(history)
    ensures var cfg := Latest(history)[key]; cfg.cfg.Usable() && Call(cfg.name, cfg).Key() == key
  {
    LatestIsStored(history, key);
    var call :| call in history && call.Key() == key && call.cfg == Latest(history)[key];
  }

  lemma CloneOfEquivalent(clone: Clone, a: seq<Call>, b: seq<Call>)
    requires IsClone(clone, a) && Equivalent(a, b)
    ensures IsClone(clone, b)
  {
  }

  lemma RouterAdded(before: map<string, Table>, after: map<string, Table>, clone: Clone, kubeConfig: string)
    requires forall kc | kc in before :: RouterFor(before, clone, kc)
    requires after.Keys == before.Keys + {kubeConfig} && RouterFor(after, clone, kubeConfig)
    requires forall kc | kc in before && kc != kubeConfig :: after[kc] == before[kc]
    ensures forall kc | kc in after :: RouterFor(after, clone, kc)
  {
    forall kc | kc in after ensures RouterFor(after, clone, kc) {
      if kc != kubeConfig {
        assert RouterFor(before, clone, kc);
      }
    }
  }

  /** A group of the clone holds configurations that are still stored. */
  lemma GroupIsStored(clone: Clone, kubeConfig: string, before: seq<Call>, now: seq<Call>)
    requires IsClone(clone, before) && Equivalent(now, before) && kubeConfig in clone
    ensures forall key | key in clone[kubeConfig] :: key in Latest(now) && Latest(now)[key] == clone[kubeConfig][key]
  {
  }

  lemma EquivalentTransitive(a: seq<Call>, b: seq<Call>, c: seq<Call>)
    requires Equivalent(a, b) && Equivalent(b, c)
    ensures Equivalent(a, c)
  {
  }

  lemma RoutersWatch(tables: map<string, Table>, clone: Clone, before: seq<Call>, after: seq<Call>)
    requires IsClone(clone, before) && Equivalent(after, before)
    requires tables.Keys == clone.Keys && forall kc | kc in tables :: RouterFor(tables, clone, kc)
    ensures Watches(tables, after)
  {
    CloneOfEquivalent(clone, before, after);
  }

  /** Every source sends its events to a channel of its own, made earlier. */
  ghost predicate OwnChannels(history: seq<Call>, channels: nat) {
    && (forall key | key in Latest(history) :: Latest(history)[key].eventCh < channels)
    && (forall a, b | a in Latest(history) && b in Latest(history) && a != b ::
          Latest(history)[a].eventCh != Latest(history)[b].eventCh)
  }

  lemma OwnChannelsNext(history: seq<Call>, channels: nat, call: Call)
    requires OwnChannels(history, channels) && call.cfg.eventCh == channels
    ensures OwnChannels(history + [call], channels + 1)
  {
    assert (history + [call])[..|history|] == history;
  }

  lemma OwnChannelsSame(a: seq<Call>, b: seq<Call>, channels: nat)
    requires Equivalent(a, b) && OwnChannels(b, channels)
    ensures OwnChannels(a, channels)
  {
  }

  lemma WellStoredNext(history: seq<Call>, call: Call)
    requires WellStored(history) && call.sourceName == call.cfg.name && call.cfg.cfg.Usable()
    ensures WellStored(history + [call])
  {
  }

  class Source {
    const configStore: Store
    var channels: nat
    var running: map<string, Table>

    ghost predicate Valid()
      reads this, configStore
    {
      && configStore.Valid() && WellStored(configStore.history) && OwnChannels(configStore.history, channels)
      && Watches(running, configStore.history)
    }

    constructor ()
      ensures Valid() && configStore.history == [] && fresh(configStore)
    {
      configStore := new Store();
      channels := 0;
      running := map[];
      new;
      var none: Clone := map[];
      assert IsClone(none, configStore.history);
    }

    ghost predicate AllStored(srcCfgs: map<string, SourceConfig>)
      reads this, configStore
    {
      forall key | key in srcCfgs ::
        key in Latest(configStore.history) && Latest(configStore.history)[key] == srcCfgs[key]
    }

    /** Stores sources once more, unchanged. */
    method StoreAgain(srcCfgs: map<string, SourceConfig>)
      requires configStore.Valid() && WellStored(configStore.history) && AllStored(srcCfgs)
      modifies configStore
      ensures configStore.Valid() && WellStored(configStore.history)
        && Equivalent(configStore.history, old(configStore.history))
    {
      var keys := srcCfgs.Keys;
      ghost var before := configStore.history;
      while keys != {}
        invariant keys <= srcCfgs.Keys
        invariant configStore.Valid() && WellStored(configStore.history) && Equivalent(configStore.history, before)
      {
        var key :| key in keys;
        keys := keys - {key};
        var srcCfg := srcCfgs[key];
        ghost var history := configStore.history;
        LatestIsWellStored(history, key);
        StoredAgain(history, Call(srcCfg.name, srcCfg));
        WellStoredNext(history, Call(srcCfg.name, srcCfg));
        configStore.Put(srcCfg.name, srcCfg);
        EquivalentTransitive(configStore.history, history, before);
      }
    }

    /** Stores the sources of one kubeconfig once more and builds their router. */
    method ConfigureProcessForSources(kubeConfig: string, srcCfgs: map<string, SourceConfig>)
      requires configStore.Valid() && WellStored(configStore.history) && AllStored(srcCfgs)
      modifies this`running, configStore
      ensures configStore.Valid() && WellStored(configStore.history)
        && Equivalent(configStore.history, old(configStore.history))
      ensures running.Keys == old(running).Keys + {kubeConfig}
      ensures forall kc | kc in old(running) && kc != kubeConfig :: running[kc] == old(running)[kc]
      ensures (forall key | key in srcCfgs :: srcCfgs[key].cfg.Usable()) && Built(running[kubeConfig], srcCfgs)
    {
      forall key | key in srcCfgs ensures srcCfgs[key].cfg.Usable() {
        LatestIsWellStored(configStore.history, key);
      }
      StoreAgain(srcCfgs);
      var router := new Router();
      router.BuildTable(srcCfgs);
      running := running[kubeConfig := router.table];
    }

    /** The groups started so far have their routers, and the store holds what the clone was taken from. */
    ghost predicate Started(clone: Clone, groups: set<string>, before: seq<Call>)
      reads this, configStore
    {
      && configStore.Valid() && WellStored(configStore.history) && Equivalent(configStore.history, before)
      && running.Keys == groups
      && forall kc | kc in running :: RouterFor(running, clone, kc)
    }

    method StartGroup(cfgsByKubeConfig: Clone, kubeConfig: string, ghost groups: set<string>, ghost before: seq<Call>)
      requires IsClone(cfgsByKubeConfig, before) && kubeConfig in cfgsByKubeConfig
      requires Started(cfgsByKubeConfig, groups, before)
      modifies this`running, configStore
      ensures Started(cfgsByKubeConfig, groups + {kubeConfig}, before)
    {
      ghost var tables, history := running, configStore.history;
      GroupIsStored(cfgsByKubeConfig, kubeConfig, before, history);
      ConfigureProcessForSources(kubeConfig, cfgsByKubeConfig[kubeConfig]);
      EquivalentTransitive(configStore.history, history, before);
      RouterAdded(tables, running, cfgsByKubeConfig, kubeConfig);
    }

    /** Starts one router for every group of the clone. */
    method Run(cfgsByKubeConfig: Clone, ghost before: seq<Call>)
      requires IsClone(cfgsByKubeConfig, before) && Started(cfgsByKubeConfig, {}, before)
      modifies this`running, configStore
      ensures Started(cfgsByKubeConfig, cfgsByKubeConfig.Keys, before)
    {
      var rest := cfgsByKubeConfig.Keys;
      ghost var groups: set<string> := {};
      while rest != {}
        invariant groups !! rest && groups + rest == cfgsByKubeConfig.Keys
        invariant Started(cfgsByKubeConfig, groups, before)
      {
        var kubeConfig :| kubeConfig in rest;
        StartGroup(cfgsByKubeConfig, kubeConfig, groups, before);
        rest, groups := rest - {kubeConfig}, groups + {kubeConfig};
      }
      assert groups == cfgsByKubeConfig.Keys;
    }

    /** Replaces the running routers by new ones, built from everything stored. */
    method Rebuild()
      requires configStore.Valid() && WellStored(configStore.history) && OwnChannels(configStore.history, channels)
      modifies this`running, configStore
      ensures Valid() && Equivalent(configStore.history, old(configStore.history))
    {
      ghost var before := configStore.history;
      running := map[];
      var cfgsByKubeConfig := configStore.CloneByKubeconfig();
      Run(cfgsByKubeConfig, before);
      RoutersWatch(running, cfgsByKubeConfig, before, configStore.history);
      OwnChannelsSame(configStore.history, before, channels);
    }

    /**
     Without credentials, or when the configurations cannot be merged, nothing changes. Otherwise the channel returned
     is that of the stored configuration and of no other source.
     */
    method Stream(kubeConfig: string, merged: Option<Config>, srcName: string, isInteractivitySupported: bool,
                  clusterName: string)
      returns (output: Option<Channel>)
      requires Valid()
      requires merged.Some? ==> merged.value.Usable()
      modifies this, configStore
      ensures Valid()
      ensures output.Some? <==> kubeConfig != "" && merged.Some?
      ensures output.None? ==> configStore.history == old(configStore.history) && running == old(running)
      ensures output.Some? ==>
        var eventCh := output.value;
        var call := Call(srcName, SourceConfig(srcName, eventCh, merged.value, isInteractivitySupported, clusterName,
                                               kubeConfig));
        && Equivalent(configStore.history, old(configStore.history) + [call])
        && (forall key | key in old(Latest(configStore.history)) ::
              old(Latest(configStore.history))[key].eventCh != eventCh)
    {
      if kubeConfig == "" || merged.None? {
        return None;
      }
      var eventCh := channels;
      channels := channels + 1;
      var cfg := SourceConfig(srcName, eventCh, merged.value, isInteractivitySupported, clusterName, kubeConfig);
      OwnChannelsNext(configStore.history, eventCh, Call(srcName, cfg));
      WellStoredNext(configStore.history, Call(srcName, cfg));
      configStore.Put(srcName, cfg);
      var systemSrcCfg := configStore.GetSystemConfig();
      assert systemSrcCfg.Some?;
      Rebuild();
      return Some(eventCh);
    }
  }

  // ---- what the running routers report ------------------------------------------------

  /**
   In the router of one group, the routes of a source are those of its latest configuration, if the group holds it.
   */
  lemma RoutesInGroup(tables: map<string, Table>, clone: Clone, history: seq<Call>, kc: string, key: string,
                      kind: string, e: EventType)
    requires IsClone(clone, history) && RouterFor(tables, clone, kc)
    ensures EverStored(history, kc, key) ==> key in Latest(history) && Latest(history)[key].cfg.Usable()
    ensures RoutesOf(TableRoutes(tables[kc], kind, e), key)
      == if EverStored(history, kc, key) then GroupRoutes(key, Latest(history)[key].cfg, kind, e) else []
  {
    var cfgs: Configs := clone[kc];
    assert key in Group(clone, kc, map[]) <==> EverStored(history, kc, key);
    assert BuiltFor(tables[kc], cfgs, kind) && Groups(TableRoutes(tables[kc], kind, e), cfgs, cfgs.Keys, kind, e);
  }

  /** The routers in which a source has its routes are those of the kubeconfigs it was ever stored with. */
  lemma RoutersOfSource(tables: map<string, Table>, history: seq<Call>, kc: string, key: string, kind: string,
                        e: EventType)
    requires Watches(tables, history)
    ensures EverStored(history, kc, key) ==> kc in tables && key in Latest(history) && Latest(history)[key].cfg.Usable()
    ensures kc in tables ==> RoutesOf(TableRoutes(tables[kc], kind, e), key)
                             == if EverStored(history, kc, key) then GroupRoutes(key, Latest(history)[key].cfg, kind, e)
                               else []
  {
    var clone: Clone :| IsClone(clone, history) && tables.Keys == clone.Keys
      && forall kc | kc in tables :: RouterFor(tables, clone, kc);
    if EverStored(history, kc, key) {
      assert key in Group(clone, kc, map[]);
    }
    if kc in tables {
      RoutesInGroup(tables, clone, history, kc, key, kind, e);
    }
  }

  /**
   When no source changes its kubeconfig, an event observed with some credentials is reported to a source as often as
   the source's latest configuration accepts it if they are the source's own credentials, and never otherwise.
   */
  lemma EventsReachSourcesByOwnCredentials(re: Regexp, tables: map<string, Table>, history: seq<Call>, kc: string,
                                           key: string, kind: string, e: EventType, ev: ObservedEvent)
    requires Watches(tables, history) && KeepsKubeconfig(history) && kc in tables && key in Latest(history)
    ensures var reported := multiset(AcceptedSources(re, TableRoutes(tables[kc], kind, e), ev))[key];
            if kc == Latest(history)[key].kubeConfig
            then Latest(history)[key].cfg.Usable()
              && reported == NaiveReports(re, Latest(history)[key].cfg, kind, e, ev)
            else reported == 0
  {
    LatestIsStored(history, key);
    var call :| call in history && call.Key() == key && call.cfg == Latest(history)[key];
    assert EverStored(history, call.cfg.kubeConfig, key);
    assert EverStored(history, kc, key) <==> kc == call.cfg.kubeConfig;
    RoutersOfSource(tables, history, kc, key, kind, e);
    SourceCountByGroup(re, TableRoutes(tables[kc], kind, e), ev, key);
    if kc == call.cfg.kubeConfig {
      GroupRoutesAreNaive(re, key, Latest(history)[key].cfg, kind, e, ev);
    }
  }

  /**
   A source stored with two kubeconfigs is watched with both: the routes of its latest configuration, if it has any for
   the event, stand in two routers.
   */
  lemma MovedSourceIsWatchedTwice(tables: map<string, Table>, history: seq<Call>, a: Call, b: Call, kind: string,
                                  e: EventType)
    requires Watches(tables, history) && a in history && b in history && a.Key() == b.Key()
      && a.cfg.kubeConfig != b.cfg.kubeConfig
    ensures a.Key() in Latest(history) && Latest(history)[a.Key()].cfg.Usable()
    ensures var cfg := Latest(history)[a.Key()].cfg;
            forall kc | kc == a.cfg.kubeConfig || kc == b.cfg.kubeConfig ::
              && kc in tables
              && RoutesOf(TableRoutes(tables[kc], kind, e), a.Key()) == GroupRoutes(a.Key(), cfg, kind, e)
              && (RoutesOf(TableRoutes(tables[kc], kind, e), a.Key()) != [] <==> Configured(cfg, kind, e))
  {
    assert EverStored(history, a.cfg.kubeConfig, a.Key()) && EverStored(history, b.cfg.kubeConfig, a.Key());
    RoutersOfSource(tables, history, a.cfg.kubeConfig, a.Key(), kind, e);
    RoutersOfSource(tables, history, b.cfg.kubeConfig, a.Key(), kind, e);
    GroupIffConfigured(a.Key(), Latest(history)[a.Key()].cfg, kind, e);
  }
}
