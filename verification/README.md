# Botkube agent: a verified model

This project models the parts of the Botkube agent where several functions, loops or goroutines have to agree, and
proves what they promise together. `dafny verify dfyconfig.toml` checks all of it.

- **Kubernetes event routing.** All source configurations are compiled into a table from resource and event type to
  routes; two separate passes over the configurations must agree, and recommendations rewrite routes in place. The
  routes of a table are compared with a naive scan of the configurations, for every order in which Go iterates maps
  (`KubernetesConfig`, `Routing`, `EventMatching`, `UpdateRouting`, `ResourceNames`). The store of configurations keeps a second index by
  kubeconfig, and one router runs for each of its groups (`ConfigurationStore`, `KubernetesSource`). The process that
  starts the routers overlaps with the next call, which is a transition system of its own (`BackgroundProcess`).
- **Plugin supervision.** Health watchers and two supervisor loops share restart counters. Reading a counter and
  incrementing it are two critical sections, so the protocol is a transition system whose events are single lock
  acquisitions, channel rendezvous and process creations. The manager that starts it may stop short of running the
  loops (`HealthStatistics`, `PluginManager`, `Supervision`).
- **Source scheduling.** The scheduler and the plugin collector traverse the same configuration independently; what is
  dispatched must be what is launched, and every platform has to be reached once (`AgentConfig`, `Collector`, `Streams`,
  `Scheduling`, `Dispatcher`). Starting all sources and handling a restart may overlap, step by step
  (`OverlappingSchedules`).
- **Validation and choice of an executor.** What an accepted configuration guarantees for the search that picks the
  plugin of a command, the configurations handed to it and the rules it runs under, over all orders of map iteration
  (`PluginKeys`, `Validation`, `Searches`, `ExecutorChoice`).
- **Analytics, reloading, tables.** Batched counters and the heartbeat that clears them (`Analytics`, `Heartbeat`),
  polling a remote configuration (`Reloader`), and cutting a table at the gaps of its header, on bytes read as UTF-8 the
  way Go reads them (`Runes`, `SpaceTable`, `SpaceTableLayout`, `SpaceTableText`).

Go map iteration is a loop that removes an arbitrary element from the set of remaining keys; every result holds for all
orders. Where the outcome depends on the order, the order is a sequence of the keys (`MapOrders`) and the loop is a
function of it. Classes stand for the objects the agent updates in place. `Options`, `Sums` and `Text` are shared
helpers.

## What turned out not to hold

Each of these is stated with the exact condition under which the code does what it promises, and with an input that
shows the failure.

- A plugin that is both a source and an executor can be restarted once more than a positive threshold allows
  (`Supervision.ThresholdRespectedIffOneOwner`, `Supervision.SharedKeyExceedsThreshold`).
- The status of a plugin tells whether a restart was refused only if one loop owns the plugin and the restart policy is
  known or the threshold below one: a shared plugin is reported as deactivated while one of its loops still runs it, and
  under an unknown policy the first failure is refused and the status stays "Running"
  (`Supervision.StatusTruthfulIff`, `Supervision.SharedKeyReportedTooEarly`,
  `Supervision.UnknownPolicyRefusesUnreported`).
- A plugin refused under an unknown policy, or one whose client cannot be created again, is gone but stays "Running", so
  "Running" means usable only where restarts are never allowed (`Supervision.RunningIsUsableIff`,
  `Supervision.FailedCreationIsUnreported`).
- When the first start finds a plugin missing and the forced retry succeeds, the manager reports success with every
  plugin launched and watched, executors perhaps twice, but none can be obtained and nobody listens to the watchers: no
  failure is handled any more (`PluginManager.Manager.Start`, `PluginManager.RetryCanSucceed`,
  `PluginManager.UnmonitoredIsNeverRestarted`).
- An update is reported to a source because a route of another source qualifies
  (`EventMatching.UpdateFollowsOwnRoutesIff`, `EventMatching.UpdateReachesSourceWithoutChange`).
- A source stored with two kubeconfigs stays in both groups and is watched with both
  (`ConfigurationStore.ClonePartitionsIffKubeconfigsKept`, `KubernetesSource.MovedSourceIsWatchedTwice`).
- A configuration stored while the process of the previous one has not yet stored its own copy again is lost, and with
  it the channel its caller listens to, even if all settings are the same
  (`BackgroundProcess.CallKeepsItsConfigurationIff`, `BackgroundProcess.NewerConfigurationIsLost`).
- A plugin restarted while the sources are started may get a stream twice, or lose one until its next restart
  (`OverlappingSchedules.OpenedTwiceIff`, `OverlappingSchedules.OpenedTwice`, `OverlappingSchedules.TableIsAccurateIff`,
  `OverlappingSchedules.StreamLost`).
- Two enabled plugins in one bound source group: only the last one iterated is dispatched, although both are launched
  (`Dispatcher.DispatchedAreUsedIff`).
- `repo/name` and `repo/name@` are different keys for one plugin and accepted together, whatever their rules. In one
  binding, map order decides which one runs; in two bindings the later one runs under the rules of the earlier
  (`ExecutorChoice.ExecutorChoiceIsDeterministicIff`, `ExecutorChoice.RunsUnderOwnRulesIff`,
  `ExecutorChoice.SpelledTwiceIsArbitrary`, `ExecutorChoice.SpellingsInTwoBindings`).
- Events that arrive between encoding a heartbeat and clearing the counters are never reported, and those that arrive
  between copying and encoding are missing in its total (`Heartbeat.LostIff`, `Heartbeat.LostEvent`,
  `Heartbeat.ReportAddsUpIff`, `Heartbeat.ReportDoesNotAddUp`).
- A column name such as "à B" is cut in two, because the last byte of "à" looks like a no-break space; a gap with blanks
  of several bytes may be cut in its middle or not at all (`SpaceTable.SeparatorsAreGapEndsIff`,
  `SpaceTable.NonBreakingByteSplitsAName`, `SpaceTable.WideBlankSplitsAGap`).

## Model

| member | source | states |
|---|---|---|
| `KubernetesConfig.IsAllowed` | internal/source/kubernetes/config/config.go:133-181 | the two loops return one verdict, characterised below: blank exclusions are skipped, and the first pattern that hits or does not compile decides |
| `KubernetesConfig.AllowedMeaning` | internal/source/kubernetes/config/config.go:131-181 | a value is allowed if and only if no exclusion hits or breaks and some inclusion hits with no broken inclusion before it |
| `KubernetesConfig.FailedMeaning` | internal/source/kubernetes/config/config.go:131-181 | an error is reported if and only if the first exclusion that does anything does not compile, or no exclusion does anything and the first such inclusion does not compile; so errors and rejections are told apart |
| `Routing.FlattenEventTypes` | internal/source/kubernetes/router.go:290-305 | resource event types replace the global ones when there are any; "all" expands to create, update, delete, error, in place |
| `Routing.MergeResourceEvents` | internal/source/kubernetes/router.go:151-173 | the first pass: an event type is listed for a resource if and only if some source configures it, explicitly or through recommendations |
| `Routing.SetEventRouteForRecommendationsIfShould` | internal/source/kubernetes/router.go:211-246 | after the override the routes of earlier sources are unchanged and those of this source are its group routes, with its first route replaced or one added |
| `Routing.OverrideFirstRoute` | internal/source/kubernetes/router.go:223-245 | the slice element overwritten is the first route of the source and no other; without one a route is appended |
| `Routing.MergeEventRoutes` | internal/source/kubernetes/router.go:175-209 | the second pass: for every event, the routes of each source are exactly its group routes in order, whatever the order of the configuration map |
| `Routing.GroupIffConfigured` | internal/source/kubernetes/router.go:151-209 | the two passes agree: a source has a route where, and only where, it contributes an event type |
| `Routing.NoSourceNoRoutes` | internal/source/kubernetes/router.go:66-76 | the merged routes of an event are non-empty if and only if the first pass lists the event, so no table entry is empty and no route is lost |
| `Routing.Router.AddEntries` | internal/source/kubernetes/router.go:66-76 | one entry per event type of a resource; entries of other resources are unchanged |
| `Routing.Router.BuildTable` | internal/source/kubernetes/router.go:66-76 | the table routes every resource and event to exactly the group routes of the configurations, without empty entries |
| `Routing.EventRoutes` | internal/source/kubernetes/router.go:248-256 | all routes of the entries for the event, in order |
| `EventMatching.KvsSatisfiedForMap` | internal/source/kubernetes/registration.go:228-249 | satisfied if and only if there are no requirements or every required key has the required value |
| `EventMatching.MatchRoute` | internal/source/kubernetes/registration.go:141-226 | one turn of the matching loop accepts what the route specification accepts and fails where a pattern it tries does not compile; an event without messages is matched with an empty one |
| `EventMatching.MatchEvent` | internal/source/kubernetes/registration.go:141-226 | the sources of the accepting routes, in order; broken patterns are reported and do not affect other routes |
| `EventMatching.AcceptsMeaning` | internal/source/kubernetes/registration.go:141-226 | a route accepts an event if and only if reason, some message, name and namespace are each allowed and all annotations and labels it asks for are there |
| `EventMatching.ErrsMeaning` | internal/source/kubernetes/registration.go:141-226 | a route reports an error if and only if one of these checks meets a pattern that does not compile while all checks before it hold |
| `EventMatching.AcceptedInOrder` | internal/source/kubernetes/registration.go:141-226 | the sources told by two lists of routes are those told by the first, then those told by the second |
| `EventMatching.EventTypesMeaning` | internal/source/kubernetes/router.go:290-305 | an entry lists an event type as often as the types in force name it, and once more for every "all" among them when it is create, update, delete or error |
| `EventMatching.IndexedRoutingIsNaiveScan` | internal/source/kubernetes/router.go:66-76 | refinement: through any table built from the configurations every source, with or without a recommendation for the event, is reported exactly as often as a naive scan of its own resource entries counts, unconfigured names never |
| `EventMatching.ExplicitIsNaive` | internal/source/kubernetes/router.go:175-201 | the explicit routes of a source accept an event as often as its resource entries do |
| `EventMatching.GroupRoutesAreNaive` | internal/source/kubernetes/router.go:175-246 | with a recommendation the first entry counts for the namespaces it lets through instead of for all its constraints, and without an entry the source itself counts |
| `EventMatching.TableOrderIndependent` | internal/source/kubernetes/router.go:175-246 | tables built in two iteration orders hold permutations of the same routes for every resource and event, with equal order inside each source |
| `EventMatching.RoutesCoverConfiguredSources` | internal/source/kubernetes/router.go:151-209 | the sources among the routes are exactly the groups that configure the event; an entry exists exactly where a route does |
| `EventMatching.OverrideIsLocal` | internal/source/kubernetes/router.go:203-246 | compared with the table of the same configurations without recommendations, at most the first route of the recommending source differs and other sources are untouched |
| `EventMatching.QualifyEventForUpdate` | internal/source/kubernetes/registration.go:282-344 | every candidate is repeated once per qualifying route; the diffs are those of the including routes, once per candidate |
| `EventMatching.QualifyEvent` | internal/source/kubernetes/registration.go:265-280 | any match error drops every candidate; only update events are qualified |
| `EventMatching.UpdateCountingLaw` | internal/source/kubernetes/registration.go:282-344 | multiplicity in the result is multiplicity among the candidates times the qualifying routes; diffs are candidates times including actionable routes |
| `EventMatching.RepeatedInOrder` | internal/source/kubernetes/registration.go:282-344 | repetitions of a candidate stand together, in the order of the candidates |
| `EventMatching.TiledInOrder` | internal/source/kubernetes/registration.go:282-344 | the diffs of the routes come once for every candidate, each time in the order of the routes |
| `UpdateRouting.TableUpdatesAreNaive` | internal/source/kubernetes/router.go:175-201 | through every table the routes of a source that qualify for an update number its resource entries that list updates and have no fields or a changed one, a recommended first entry always; its diffs are the texts of the entries with fields and the diff flag, in order |
| `UpdateRouting.OnlyUpdatesHaveSettings` | internal/source/kubernetes/router.go:193-198 | no route of another event carries update settings |
| `UpdateRouting.UpdateIsToldIff` | internal/source/kubernetes/registration.go:265-344 | through every table, a source is told of an update if and only if a naive scan of its configuration reports the event and some source, itself or another, has an entry that qualifies |
| `EventMatching.FindDiff` | internal/source/kubernetes/k8sutil/diff.go:15-36 | the loop concatenates the differences of the fields in order, and nothing for a field that cannot be evaluated |
| `EventMatching.FieldsDiffMeaning` | internal/source/kubernetes/k8sutil/diff.go:15-60 | the description is non-empty if and only if some field changed, where a missing value that becomes "false" is no change |
| `EventMatching.FieldsDiffText` | internal/source/kubernetes/k8sutil/diff.go:15-60 | the text of one field that changed: its name, the old and the new value; nothing for any other |
| `EventMatching.FieldsDiffConcat` | internal/source/kubernetes/k8sutil/diff.go:15-36 | the texts of several fields follow each other in the order of the fields |
| `EventMatching.UpdateFollowsOwnRoutesIff` | internal/source/kubernetes/registration.go:282-344 | whatever an update changes, a candidate is told of it exactly because of its own routes if and only if it has a route without fields to watch, or every route of the event has some and each path watched by any of them is watched by an own route |
| `EventMatching.UpdateReachesSourceWithoutChange` | internal/source/kubernetes/registration.go:282-344 | two sources watch different fields of deployments: through every table built from them a change of one field is reported to both |
| `ResourceNames.GvrRoundTrip` | internal/source/kubernetes/registration.go:347-352 | reading back a printed resource name gives the resource if and only if its components contain no slash |
| `ResourceNames.PartsOfName` | internal/source/kubernetes/source.go:364-375 | two parts are version and resource of the core group, three are group, version and resource |
| `ResourceNames.ReadableIff` | internal/source/kubernetes/source.go:364-375 | a name can be read if and only if it has one or two slashes |
| `ConfigurationStore.KeyForStoreInjective` | internal/source/kubernetes/configuration_store.go:91-93 | different sources or flavours have different keys |
| `ConfigurationStore.PlainFlavourFirst` | internal/source/kubernetes/configuration_store.go:91-93 | of one source the flavour without interactivity has the smaller key |
| `ConfigurationStore.KeyOrderIsNotNameOrder` | internal/source/kubernetes/configuration_store.go:52-62 | the keys of "a" and "a-b" are ordered the other way round than the names |
| `ConfigurationStore.LatestMeaning` | internal/source/kubernetes/configuration_store.go:27-40 | what is stored under a key is the configuration of the last call with that key |
| `ConfigurationStore.Store.Put` | internal/source/kubernetes/configuration_store.go:27-40 | both maps stay determined by the history of calls, extended by this one |
| `ConfigurationStore.Store.GetSystemConfig` | internal/source/kubernetes/configuration_store.go:52-62 | the configuration with the least key; none exactly when nothing was stored |
| `Text.BeforeMeaning` | internal/source/kubernetes/configuration_store.go:57 | keys are sorted as in a dictionary: a proper prefix first, otherwise by the first difference |
| `ConfigurationStore.Store.CloneByKubeconfig` | internal/source/kubernetes/configuration_store.go:72-88 | each group holds exactly the keys ever stored under its kubeconfig, with their latest configurations |
| `ConfigurationStore.ClonePartitionsIffKubeconfigsKept` | internal/source/kubernetes/configuration_store.go:27-88 | the clone partitions the store, and every source is grouped by its own kubeconfig, if and only if no key was stored with two kubeconfigs |
| `ConfigurationStore.SystemConfigOrderIndependent` | internal/source/kubernetes/configuration_store.go:50-62 | histories that leave the same configurations have the same system configuration |
| `KubernetesSource.Source.StoreAgain` | internal/source/kubernetes/source.go:168-189 | storing the sources again changes neither configurations nor groups |
| `KubernetesSource.Source.ConfigureProcessForSources` | internal/source/kubernetes/source.go:162-192 | configurations and groups stay; the router is built from exactly these sources |
| `KubernetesSource.Source.Stream` | internal/source/kubernetes/source.go:108-160 | fails without a change when credentials are missing or configurations cannot be merged; otherwise one router per kubeconfig runs, built from everything stored so far, and the channel returned is new and that of this source alone |
| `KubernetesSource.EventsReachSourcesByOwnCredentials` | internal/source/kubernetes/source.go:108-192 | when no source changes its kubeconfig, an event seen with some credentials is reported to a source as often as a naive scan of its latest configuration counts if the credentials are its own, and never otherwise |
| `KubernetesSource.MovedSourceIsWatchedTwice` | internal/source/kubernetes/source.go:146-155 | a source stored with two kubeconfigs has the routes of its latest configuration in both routers, some wherever it configures the event |
| `BackgroundProcess.CallKeepsItsConfigurationIff` | internal/source/kubernetes/source.go:123-143 | in every interleaving, when the old process has finished the store holds the configuration of the call, with the channel it returned, if and only if the process had no copy of that key left to store when the call began; other keys are unchanged |
| `BackgroundProcess.NewerConfigurationIsLost` | internal/source/kubernetes/source.go:162-188 | for any two calls with one key, even with equal settings, the interleaving after which the store holds the first configuration and channel only |
| `HealthStatistics.HealthStats.Increment` | pkg/plugin/health_stats.go:35-46 | exactly the counter of the plugin grows by one and its entry records the threshold and the time |
| `HealthStatistics.HealthStats.GetRestartCount` | pkg/plugin/health_stats.go:49-56 | zero for an unknown plugin, its counter otherwise |
| `HealthStatistics.HealthStats.GetStats` | pkg/plugin/health_stats.go:59-75 | "Deactivated" exactly when the plugin has a counter above the threshold; counter, threshold and time of the last failure as recorded |
| `HealthStatistics.ShouldRestartPlugin` | pkg/plugin/health_monitor.go:113-129 | run without interleaving, a restart is granted if and only if the counter was below the limit, and the agent exits if and only if the policy says so at the threshold |
| `HealthStatistics.DecisionMeaning` | pkg/plugin/health_monitor.go:113-129 | a restart is granted if and only if the policy is known and the counter below the threshold; only the restart-agent policy exits, exactly at or above it |
| `PluginManager.Manager.CreateClients` | pkg/plugin/manager.go:419-430 | all plugins are enabled and each has one more watcher, or, where one cannot be launched, none is enabled and those launched before keep their watchers |
| `PluginManager.Manager.StartOnce` | pkg/plugin/manager.go:155-182 | executors are launched and enabled before sources are loaded; a missing source leaves the executors launched |
| `PluginManager.FirstFailureDecides` | pkg/plugin/manager.go:155-182 | an attempt succeeds if and only if none of its five stages fails, and finds a plugin missing if and only if the first stage that fails does |
| `PluginManager.Manager.Start` | pkg/plugin/manager.go:127-153 | started and monitored together, in the initial state of the protocol, exactly when something is enabled and the first attempt succeeds; success without monitoring exactly when there is nothing to start or the forced retry succeeds, and then every plugin is launched and watched, executors twice if the first attempt had launched them; a plugin can be obtained exactly when it is enabled and the first attempt succeeded |
| `PluginManager.Manager.GetExecutor` | pkg/plugin/manager.go:185-197 | yields a client if and only if the manager is started and the executor enabled |
| `PluginManager.Manager.GetSource` | pkg/plugin/manager.go:200-212 | yields a client if and only if the manager is started and the source enabled |
| `PluginManager.RetryCanSucceed` | pkg/plugin/manager.go:138-144 | for all plugins there are a first attempt that launches the executors and misses a source, and a second one that succeeds |
| `PluginManager.UnmonitoredIsNeverRestarted` | pkg/plugin/manager.go:474-500 | from the state a successful retry leaves, in every run in which nobody receives from the supervisor channels, only watchers fail; all plugins stay enabled with their watchers, nothing is counted or notified, and every plugin is reported as running |
| `Supervision.OneTokenPerPlugin` | pkg/plugin/health_monitor.go:50-111 | in every reachable state a plugin has at most one watcher, blocked watcher or handler without a client, exactly one when enabled, and a missing one was spent on one refusal or one failed creation |
| `Supervision.EnabledIffWatched` | pkg/plugin/health_monitor.go:50-111 | in every reachable state a plugin is in the enabled store if and only if it is watched or its failure is not yet handled, except between creating and inserting its new client |
| `Supervision.GoneForever` | pkg/plugin/health_monitor.go:59-79 | a plugin whose token is gone is never enabled nor restarted again in any continuation |
| `Supervision.EveryRestartIsNotified` | pkg/plugin/health_monitor.go:59-79 | between two handlers the scheduler has been told of every restart of a source whose client could be created, once |
| `Supervision.ExitedIffRefused` | pkg/plugin/health_monitor.go:113-129 | in every reachable state the agent has exited if and only if the policy is to restart the agent and some restart was refused |
| `Supervision.TokenCanMove` | pkg/plugin/health_monitor.go:50-111 | while the agent has not exited, the side of every plugin that still has a watcher or a handler has an event to take: under the other policies a refusal stops nobody else |
| `Supervision.SingleOwnerCounts` | pkg/plugin/health_monitor.go:113-129 | for a plugin of one loop, restarts granted are the smaller of counter and limit, and at most one restart was refused |
| `Supervision.SingleOwnerRestartBound` | pkg/plugin/health_monitor.go:113-129 | a plugin of one loop is restarted at most threshold times |
| `Supervision.RestartBound` | pkg/plugin/health_monitor.go:113-129 | two loops sharing a counter grant at most one restart more than the threshold |
| `Supervision.SharedKeyExceedsThreshold` | pkg/plugin/health_monitor.go:113-129 | for every shared plugin and positive limit there is a run that does exceed the threshold |
| `Supervision.ThresholdRespectedIffOneOwner` | pkg/plugin/health_monitor.go:113-129 | the threshold is respected in every run if and only if the plugin is not both a source and an executor, or no restart is ever granted |
| `Supervision.EveryRunIsBounded` | pkg/plugin/health_monitor.go:50-129 | supervision terminates: every run is at most (46 + 10 * limit) events per plugin long |
| `Supervision.DeactivatedIffRefused` | pkg/plugin/health_stats.go:59-75 | for a plugin of one loop, under every policy: "Deactivated" is reported exactly when a restart was refused, unless an unknown policy with a positive threshold refused it; a plugin so reported is neither enabled nor watched |
| `Supervision.DeactivatedForever` | pkg/plugin/health_monitor.go:63-68 | a plugin reported "Deactivated" stays out of the store in every continuation |
| `Supervision.RunningMeansSupervisedUnlessGoneUnreported` | pkg/plugin/health_monitor.go:63-79 | "Running" coincides with being supervised if and only if no creation of its client failed and no restart was refused under an unknown policy with a positive threshold |
| `Supervision.UnknownPolicyRefusesUnreported` | pkg/plugin/health_monitor.go:113-129 | a run under an unknown policy in which the first failure is refused: the plugin is gone and reported as running |
| `Supervision.FailedCreationIsUnreported` | pkg/plugin/health_monitor.go:70-74 | a run in which a granted restart fails: the plugin is gone and reported as running |
| `Supervision.RunningIsUsableIff` | pkg/plugin/health_monitor.go:50-129 | for a plugin of one loop that is not handling a failure, "Running" coincides with being in the enabled store, in every run, if and only if the threshold is below one |
| `Supervision.SharedKeyReportedTooEarly` | pkg/plugin/health_stats.go:59-75 | a run in which a shared plugin is reported "Deactivated" while one loop still runs it and never refused it |
| `Supervision.StatusTruthfulIff` | pkg/plugin/health_stats.go:59-75 | the status tells whether this loop refused a restart, in every run, if and only if the plugin is owned by this loop alone and the policy is known or the threshold below one |
| `Collector.Collect` | pkg/plugin/collector.go:25-34 | adds exactly the names bound by the channels of an enabled platform |
| `Collector.GetAllEnabledAndUsedPlugins` | pkg/plugin/collector.go:38-152 | a plugin is collected if and only if a group has it enabled and some enabled platform or action binds the group |
| `AgentConfig.BoundMeaning` | internal/source/scheduler.go:170-246 | a source is needed interactively by Cloud Slack, Socket Slack and Cloud Teams, plainly by Mattermost, Discord, the sinks and enabled actions, and by nothing else |
| `AgentConfig.BoundExecutorMeaning` | pkg/plugin/collector.go:38-152 | an executor is needed by the channels of enabled bots and by enabled actions, and by no sink |
| `Scheduling.FlavourKeyInjective` | internal/source/scheduler.go:258-262 | different sources or flavours have different configuration keys |
| `Scheduling.Scheduler.SetStream` | internal/source/scheduler.go:285-308 | the inner map is replaced: the flavour has exactly this stream and is recorded with this plugin, others are unchanged |
| `Scheduling.LastEnabledWins` | internal/source/scheduler.go:258-312 | the loop over the plugins, in any order, leaves exactly the stream of the last enabled one |
| `Scheduling.LastEnabledMeaning` | internal/source/scheduler.go:269-310 | the plugin kept is enabled and no later one of the order is |
| `Scheduling.Scheduler.ConfigurePlugins` | internal/source/scheduler.go:269-310 | iterates the plugins in some order and does what the loop over that order does; what the stream kept carries is in `Dispatcher.StreamCoverage` |
| `Scheduling.Scheduler.GeneratePluginConfig` | internal/source/scheduler.go:258-312 | succeeds if and only if the source exists and all its enabled plugins can be serialised; then exactly this flavour is added |
| `Scheduling.PlanIsGenerated` | internal/source/scheduler.go:170-312 | whatever the orders of iteration, a sequence of runs of the loop configures exactly its flavours, each with one stream of an enabled plugin |
| `Scheduling.Scheduler.GenerateSourceConfigs` | internal/source/scheduler.go:248-256 | adds exactly the listed sources in this flavour; a failure names a source that cannot be configured |
| `Scheduling.Scheduler.GenerateConfigs` | internal/source/scheduler.go:170-246 | succeeds if and only if every bound source exists and all its enabled plugins have configurations that can be serialised, and then configures exactly the bound flavours, over all platforms and enabled actions |
| `Scheduling.GeneratedWithStream` | internal/source/scheduler.go:285-308 | configuring one more flavour keeps every other flavour's stream |
| `Scheduling.Scheduler.ScheduleKey` | internal/source/scheduler.go:146-165 | dispatches only planned, filtered streams of this key that are not open; on success all of them are |
| `Scheduling.Scheduler.Schedule` | internal/source/scheduler.go:143-168 | on success the open streams are those open before and all planned ones that pass the filter; dispatches follow the alphabetical order of keys |
| `Scheduling.Scheduler.HandleRestart` | internal/source/scheduler.go:124-141 | the restarted plugin has exactly its planned streams open again; streams of other plugins stay as they were |
| `Scheduling.Scheduler.Start` | internal/source/scheduler.go:114-122 | after a start exactly the planned streams of everything bound are open |
| `Streams.OpenedStreams.ReportStartedStreamWithConfiguration` | internal/source/scheduler.go:71-83 | the table keeps agreeing with the log of dispatches, in which no open stream is dispatched |
| `Streams.OpenedStreams.DeleteAllStartedStreamsForPlugin` | internal/source/scheduler.go:85-89 | the restart closes all streams of the plugin and no other |
| `Streams.OpenMeaning` | internal/source/scheduler.go:66-96 | a stream is open if and only if it was dispatched and its plugin has not been restarted since |
| `Streams.RestartBetweenDispatches` | internal/source/scheduler.go:66-96 | between two dispatches of one stream its plugin was restarted, when calls of the scheduler do not overlap |
| `OverlappingSchedules.OpenedTwiceIff` | internal/source/scheduler.go:99-165 | in every interleaving of start and restart handling, no stream is opened twice between restarts if and only if no loop opens a stream that the other one has opened since it asked, or was about to report |
| `OverlappingSchedules.TableIsAccurateIff` | internal/source/scheduler.go:99-165 | in every interleaving the table names open streams only if and only if no loop reports a stream that it opened before the restart and nobody has opened since |
| `OverlappingSchedules.LostUntilRestart` | internal/source/scheduler.go:143-165 | a stream that the table names but nobody has open stays so until its plugin is restarted |
| `OverlappingSchedules.TurnsAreSafe` | internal/source/scheduler.go:99-165 | when the loops take turns stream by stream, no stream is opened twice and the table names exactly the open streams |
| `OverlappingSchedules.OpenedTwice` | internal/source/scheduler.go:99-165 | for every stream a run that opens it twice on one restarted plugin |
| `OverlappingSchedules.StreamLost` | internal/source/scheduler.go:99-165 | for every stream a run after which it is reported and closed |
| `Dispatcher.EventDispatcher.constructor` | internal/source/dispatcher.go:62-88 | every bot is in exactly one of the two lists, by its platform's interactivity |
| `Dispatcher.ReachedByOwnFlavourOnly` | internal/source/dispatcher.go:171-183 | Socket Slack, Cloud Slack and Cloud Teams see the interactive stream of a source and not the plain one; all other bots and the sinks the plain one only |
| `Dispatcher.StreamCoverage` | internal/source/scheduler.go:170-233 | every enabled platform bound to a source with an enabled plugin has exactly one stream of its flavour, under its key; it carries the plugin's serialised configuration, its context and the names of the source, and the started plugin is recorded with the same configuration and name |
| `Dispatcher.DispatchedIsUsed` | internal/source/scheduler.go:170-312 | every dispatched plugin is one the collector returns |
| `Dispatcher.CallsAvoiding` | internal/source/scheduler.go:258-312 | for runs of the loop in which a plugin is nowhere the only enabled one there are orders of iteration that leave it dispatched nowhere |
| `Dispatcher.DispatchedAreUsedIff` | internal/source/scheduler.go:258-312 | over all orders in which the plugins of each source are iterated, the dispatched plugins are exactly the collected ones if and only if each collected plugin is the only enabled one of some bound group |
| `Dispatcher.OnePluginPerGroupSuffices` | internal/source/scheduler.go:258-312 | in particular when each bound group enables at most one plugin |
| `PluginKeys.DecomposePrinted` | pkg/config/plugin.go:16-29 | decomposition recovers repository, name and version of every printed key |
| `PluginKeys.PrintDecomposed` | pkg/config/plugin.go:16-29 | a decomposed key is the printed form of its parts, except for a bare trailing `@` |
| `PluginKeys.NamesAgree` | pkg/config/plugin.go:16-42 | the executor name is the decomposed name on every key that decomposes; a key without a slash is its own name |
| `Validation.ValidateBoundPlugins` | pkg/config/plugin.go:64-100 | one pass with an index by name reports, key by key, the conflict with the first key of that name |
| `Validation.NoBoundIssuesIffConsistent` | pkg/config/plugin.go:64-100 | nothing is reported if and only if any two keys of one name have the same repository and version |
| `Validation.BoundIssuesMeaning` | pkg/config/plugin.go:64-100 | a conflict is reported of a key if and only if the first key of its name differs from it, a repository conflict when the repositories differ and a version conflict when only the versions do |
| `Validation.ValidatePlugins` | pkg/config/plugin.go:102-148 | nothing is reported if and only if all enabled keys of a group are well formed and consistent; every malformed key is reported, and each report is of an enabled key that is malformed or differs from another as it says |
| `Validation.ValidatePluginRBAC` | pkg/config/validator.go:382-422 | nothing is reported if and only if every plugin has equal rules in all bound groups that enable it; every plugin with different rules is reported, and every report is a real difference |
| `Validation.ValidateExecutorBindings` | pkg/config/validator.go:441-460 | nothing is reported if and only if the bindings are accepted; otherwise every unknown group, every ambiguous name and every plugin under different rules is reported, and nothing that is not so |
| `Validation.AcceptedMeaning` | pkg/config/validator.go:441-460 | acceptance, group by group: all bindings exist, any two enabled plugins of bound groups are compatible, and one plugin has the same rules in all of them |
| `ExecutorChoice.GetEnabledPlugins` | pkg/execute/plugin_executor.go:306-334 | for some order of each map, the configurations of the plugins of the command, binding by binding in that order, and the key of the last one; every enabled key of a bound group whose name is the command is among them, whatever its repository and version, and no other |
| `ExecutorChoice.FindsMeaning` | pkg/execute/plugin_executor.go:306-334 | in every order the search finds exactly the enabled keys of bound groups that decompose to the command's name, each once, in the order of the bindings |
| `ExecutorChoice.PrintedIsFound` | pkg/execute/plugin_executor.go:323-329 | a plugin enabled as `repo/name` or `repo/name@version` answers the command `name` and no other |
| `ExecutorChoice.CanHandle` | pkg/execute/plugin_executor.go:40-49 | true if and only if there is a command and some bound group has an enabled key that decomposes to its name |
| `ExecutorChoice.ExecutorChoiceIsDeterministicIff` | pkg/execute/plugin_executor.go:306-334 | a command selects the same full plugin name in every order of iteration if and only if no binding has two plugins for it while no later binding has one |
| `ExecutorChoice.ConfigsAreDeterministicIff` | pkg/execute/plugin_executor.go:306-334 | the configurations are the same in every order if and only if the plugins each binding has for the command have equal configurations |
| `ExecutorChoice.RunsUnderOwnRulesIff` | pkg/execute/plugin_executor.go:76-95 | the rules of the first configuration found are those of the plugin that runs, in every order, if and only if every plugin of the first binding with one has the rules of every plugin of the last such binding |
| `ExecutorChoice.AcceptedKeysAgree` | pkg/config/plugin.go:64-100 | in accepted bindings the keys for one command are spellings of one plugin that differ at most in a bare trailing `@` |
| `ExecutorChoice.OneKeyPerCommandIff` | pkg/config/validator.go:441-460 | accepted bindings have at most one key per command if and only if no key is also spelled with a bare trailing `@` |
| `ExecutorChoice.ExecutorChoiceIsDeterministic` | pkg/execute/plugin_executor.go:76-95 | accepted bindings that spell no key twice give the same full plugin name and the same configurations in the same order, in every order of iteration, and the command runs under the rules of its own plugin |
| `ExecutorChoice.EmptyCommandSelectsNothing` | pkg/execute/plugin_executor.go:306-334 | with well-defined groups the empty command selects nothing |
| `ExecutorChoice.SpelledTwiceIsArbitrary` | pkg/config/plugin.go:61-100 | for every repository, name and pair of rules, a group with `repo/name` and `repo/name@` is accepted and two orders of iteration select different keys |
| `ExecutorChoice.SpellingsInTwoBindings` | pkg/execute/plugin_executor.go:76-95 | with the two spellings in two bindings, accepted whatever their rules, the later one runs in every order and the rules of the earlier one apply |
| `Analytics.Data.AddSourceEvent` | internal/analytics/batched/data.go:57-71 | the counters keep summarising the events since the last reset, extended by this one |
| `Analytics.Data.Reset` | internal/analytics/batched/data.go:41-48 | counters and window are those of a new batch |
| `Analytics.Data.IncrementTimeWindowInHours` | internal/analytics/batched/data.go:34-39 | the window stays the default plus the failures since the last reset |
| `Analytics.SegmentReporter.ReportHandledEventError` | internal/analytics/segment_reporter.go:157-174 | a failure without an error is not counted |
| `Analytics.SummaryNext` | internal/analytics/batched/data.go:57-71 | counts and first-75 details per plugin stay those of the events when one is added |
| `Analytics.NothingLostByCounting` | internal/analytics/batched/data.go:57-71 | counts per plugin add up to all events, details to the smaller of that and 75 |
| `Heartbeat.RunsKeepInvariant` | internal/analytics/segment_reporter.go:209-235 | in every run counters, report in flight and history agree: each event was delivered, lost, or waits, and the window is the default plus the failed ticks |
| `Heartbeat.WindowCountsFailures` | internal/analytics/segment_reporter.go:221-233 | in every run the window is the default plus the failed reports since the last successful one, read off the steps of the run |
| `Heartbeat.ReportAddsUpIff` | internal/analytics/segment_reporter.go:243-258 | a report's total equals the sum of its sources if and only if no event arrived between copying and encoding |
| `Heartbeat.ReportDoesNotAddUp` | internal/analytics/segment_reporter.go:243-258 | a run whose report has total 0 and one event in its sources |
| `Heartbeat.LostIff` | internal/analytics/segment_reporter.go:221-233 | events are lost in a run if and only if some arrive between encoding a report and clearing the counters after it was sent |
| `Heartbeat.LostEvent` | internal/analytics/segment_reporter.go:221-233 | a run that loses an event |
| `Heartbeat.DeliveredOrWaiting` | internal/analytics/segment_reporter.go:209-235 | without that overlap every event was delivered exactly once or still waits |
| `Reloader.RemoteConfigReloader.CompareResVer` | internal/config/reloader/remote.go:136-145 | an older version is an error, an equal one no update |
| `Reloader.RemoteConfigReloader.SetResourceVersionForAll` | internal/config/reloader/remote.go:197-202 | afterwards all holders have the reloader's version |
| `Reloader.RemoteConfigReloader.ProcessNewConfig` | internal/config/reloader/remote.go:151-195 | a version not newer changes nothing; a newer one is afterwards that of the reloader and all holders whatever loading and comparing do, and the configuration changes, with a restart, exactly when loading succeeds and comparing finds a difference |
| `Reloader.RemoteConfigReloader.Do` | internal/config/reloader/remote.go:52-110 | the loop runs the ticks up to the first failed restart; holders that started in step stay in step |
| `Reloader.RestartsIncrease` | internal/config/reloader/remote.go:52-195 | over every run the version never decreases, restarts carry strictly increasing versions, each with a change, and the last one's configuration is the current one |
| `Reloader.ConsumedOnce` | internal/config/reloader/remote.go:151-195 | whatever became of a version, every later restart is for a newer one |
| `Reloader.RunVersion` | internal/config/reloader/remote.go:52-195 | after every run no tick processed is newer than the version, which is the first one or that of a tick: a version that failed is never processed again; all ticks are processed unless a restart failed, and that one is the last |
| `Reloader.RestartsSucceeded` | internal/config/reloader/remote.go:52-110 | in a run that does not fail every restart belongs to a tick whose restart succeeded |
| `Reloader.RunsKeepUp` | internal/config/reloader/remote.go:151-195 | after every run the configuration is no different from the last one consumed, unless that one could not be loaded or compared |
| `SpaceTable.IncreaseWithMax` | pkg/mathx/int.go:4-10 | never above the maximum, one more below it |
| `SpaceTable.DecreaseWithMin` | pkg/mathx/int.go:13-19 | never below the minimum, one less above it |
| `Runes.SpaceIsWhitespaceRune` | pkg/formatx/space_table.go:59-65 | the encodings trimmed are exactly those of the whitespace runes |
| `Runes.DecodeEncoded` | pkg/formatx/space_table.go:60-65 | reading a rune where the UTF-8 encoding of a scalar value stands gives that value and its width |
| `Runes.WhitespaceRunes` | pkg/formatx/space_table.go:62 | the whitespace runes are the 25 of Unicode's White_Space property |
| `Runes.TrimSpaceMeaning` | pkg/formatx/space_table.go:99 | trimming removes whitespace runes at both ends, all of them and nothing else |
| `SpaceTable.GetSeparators` | pkg/formatx/space_table.go:60-86 | the loop over runes returns the separators of the line, in increasing order |
| `SpaceTable.SeparatorsMeaning` | pkg/formatx/space_table.go:60-86 | a byte position is a separator if and only if a whitespace rune starts there, the next byte is not whitespace and the previous one is |
| `SpaceTable.AsciiSeparators` | pkg/formatx/space_table.go:60-86 | on ASCII text the separators are exactly the last blanks of the gaps |
| `SpaceTable.SeparatorByWidth` | pkg/formatx/space_table.go:60-86 | a two-byte blank is never a separator, a three-byte blank is one exactly after a byte that looks like whitespace, a one-byte blank between bytes that do and do not |
| `SpaceTable.SeparatorsAreGapEndsIff` | pkg/formatx/space_table.go:60-86 | in every line the separators are the ends of the gaps between runes if and only if the bytes around no blank mislead, by the width of the blank |
| `SpaceTable.WideBlankSplitsAGap` | pkg/formatx/space_table.go:70-84 | concrete instance: a gap with U+3000 in it is cut in its middle and not at its end |
| `SpaceTable.NonBreakingByteSplitsAName` | pkg/formatx/space_table.go:70-84 | concrete instance: "à B" |
| `SpaceTable.SplitIntoCells` | pkg/formatx/space_table.go:89-105 | every bound is in range also for short rows; one cell per separator and one more, each its trimmed slice |
| `SpaceTable.SlicesMakeTheLine` | pkg/formatx/space_table.go:89-105 | the uncut slices concatenate to the line |
| `SpaceTable.OnlyWhitespaceIsLost` | pkg/formatx/space_table.go:99 | each slice is whitespace, the cell, whitespace |
| `SpaceTable.TableSeparated` | pkg/formatx/space_table.go:29-53 | all lines are cut at the separators of the first; every row has as many cells as the header |
| `SpaceTableText.TabsMeaning` | pkg/formatx/space_table.go:55-57 | text without tabs stays, and each tab becomes two blanks |
| `SpaceTableText.ScanOneLine` | pkg/formatx/space_table.go:29-53 | a line ends at a line feed, which is dropped with one carriage return before it; a last line needs none |
| `SpaceTableLayout.HeaderSeparators` | pkg/formatx/space_table.go:60-86 | for a header laid out in columns the separators are the positions right before the columns |
| `SpaceTableLayout.TableReadsBack` | pkg/formatx/space_table.go:29-105 | round trip: a table laid out in columns is read back cell by cell, with names of several words kept whole and empty or missing last cells |
| `SpaceTableText.PrintedTableReadsBack` | pkg/formatx/space_table.go:29-105 | the same round trip from the printed text, through replacing tabs, trimming and scanning lines, whatever blanks follow the last line |

## Left out

- Names and settings parsed from YAML: restart policies are parsed values (the agent ignores their case), and
  `LoadWithDefaults`, `MergeConfigs` and `diff.Diff` are parameters.
- Regular expressions, JSONPath, JSON serialisation and `ResourceEventsForConfig` are parameters: uninterpreted
  functions, or a field of the configuration.
- EventMatching.UpdateFollowsOwnRoutesIff: different paths are read independently of each other. That a change of one
  path always shows in another that contains it is not modelled.
- Time, logging, error texts and context cancellation; timestamps are arguments.
- `Config.Usable`: the agent dereferences the event settings of every configuration that lists resources, so a
  configuration without them is a precondition, not an error.
- Routing.Router.BuildTable: is modelled for a new router, its only use.
- `RegisterInformers`, `MapWithEventsInformer` and event handlers: they pass events of the Kubernetes client on.
- KubernetesSource.Source.Stream: runs the background process to its end before the next call; `BackgroundProcess` has
  the overlap for the store, without routers. The agent exiting when a Kubernetes client cannot be created is not
  modelled.
- KubernetesSource.Source.ConfigureProcessForSources: is one step here, for the same reason. The loggers, filters and
  message builders it adds to a stored configuration are left out.
- PluginManager.Manager.Start: which loads find a plugin missing or break, and which clients can be created, are
  parameters of an attempt.
- Supervision: `log.Fatalf` is a terminal state; plugin processes only fail, their output is not modelled.
- Scheduling.Scheduler.HandleRestart: needs a non-empty plugin name, which stored plugin keys have.
- Streams.RestartBetweenDispatches: is for calls of the scheduler that do not overlap; `OverlappingSchedules` has those
  that do, with loops that may ask for streams in any order. In both, a restart counts from the moment its notice is
  handled, not from the moment the new client exists.
- Dispatching: whether a plugin accepts a stream is an arbitrary outcome; message delivery is not modelled.
- Validation.ValidateExecutorBindings: also stands for `validateSourceBindings`, which has the same body;
  `validateActionExecutors` is a separate check on channel rules. Issues name the conflicting key, not its message.
- Heartbeat.ReportAddsUpIff: encoding the shared map of sources is one step; Go allows no concurrent write meanwhile.
- SpaceTable.TableSeparated: the scanner's limit of 64 KiB per line is not modelled.
- Reloader: holders change versions only through the reloader.
- Chat platforms, sinks, HTTP, gRPC and GraphQL clients, message rendering, command parsing, plugin download and the
  CLI: input and output against services, or formatting.
