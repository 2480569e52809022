/** Starting the plugin manager: when plugins become usable, and when somebody listens to their watchers. */
module PluginManager {
  import opened HealthStatistics
  import opened Supervision

  /** How loading a repository index or the binaries of some plugins ends. */
  datatype Load = Loaded | Missing | Broken

  /** What one attempt to start all plugins meets: three loads, and which clients can be created. */
  datatype Attempt = Attempt(index: Load, executors: Load, sources: Load, launches: (Kind, Key) -> bool)

  predicate LaunchesAll(a: Attempt, kind: Kind, keys: set<Key>) {
    forall key | key in keys :: a.launches(kind, key)
  }

  /** The attempt gets as far as having launched all executors. */
  predicate LaunchesExecutors(a: Attempt, executors: set<Key>) {
    a.index.Loaded? && a.executors.Loaded? && LaunchesAll(a, Executor, executors)
  }

  predicate Succeeds(a: Attempt, executors: set<Key>, sources: set<Key>) {
    LaunchesExecutors(a, executors) && a.sources.Loaded? && LaunchesAll(a, Source, sources)
  }

  /** The first load that does not succeed finds a plugin missing. */
  predicate FindsMissing(a: Attempt, executors: set<Key>) {
    || a.index.Missing?
    || (a.index.Loaded? && a.executors.Missing?)
    || (LaunchesExecutors(a, executors) && a.sources.Missing?)
  }

  /** What one attempt does, one after the other. */
  function Stages(a: Attempt, executors: set<Key>, sources: set<Key>): (stages: seq<Load>)
    ensures |stages| == 5
  {
    [a.index,
     a.executors, if LaunchesAll(a, Executor, executors) then Loaded else Broken,
     a.sources, if LaunchesAll(a, Source, sources) then Loaded else Broken]
  }

  /** The first stage that does not succeed decides how the attempt ends. */
  lemma FirstFailureDecides(a: Attempt, executors: set<Key>, sources: set<Key>)
    ensures var stages := Stages(a, executors, sources);
            && (Succeeds(a, executors, sources) <==> forall i | 0 <= i < 5 :: stages[i] == Loaded)
            && (FindsMissing(a, executors) <==>
                  exists i | 0 <= i < 5 :: stages[i] == Missing && forall j | 0 <= j < i :: stages[j] == Loaded)
  {
    var stages := Stages(a, executors, sources);
    assert (forall i | 0 <= i < 5 :: stages[i] == Loaded) <==>
      stages[0] == stages[1] == stages[2] == stages[3] == stages[4] == Loaded;
    assert a.index.Missing? ==> stages[0] == Missing;
    assert a.index.Loaded? && a.executors.Missing? ==> stages[1] == Missing && stages[0] == Loaded;
    assert LaunchesExecutors(a, executors) && a.sources.Missing? ==>
      stages[3] == Missing && forall j | 0 <= j < 3 :: stages[j] == Loaded;
  }

  /** Every plugin is enabled and has a watcher, or two. */
  function WatchedSide(keys: set<Key>, twice: bool): Side {
    StartSide(keys).(watching := multiset(keys) + if twice then multiset(keys) else multiset{})
  }

  /** What asking for a plugin yields. */
  datatype Lookup = NotStarted | NotFound | Found

  class Manager {
    const executorsToEnable: set<Key>
    const sourcesToEnable: set<Key>
    var executorSide: Side
    var sourceSide: Side
    var isStarted: bool
    var monitorRunning: bool

    constructor (executors: set<Key>, sources: set<Key>)
      ensures !isStarted && !monitorRunning && executorSide == StartSide({}) && sourceSide == StartSide({})
      ensures executorsToEnable == executors && sourcesToEnable == sources
    {
      executorsToEnable, sourcesToEnable := executors, sources;
      executorSide, sourceSide := StartSide({}), StartSide({});
      isStarted, monitorRunning := false, false;
    }

    function KeysOf(kind: Kind): set<Key> {
      match kind case Source => sourcesToEnable case Executor => executorsToEnable
    }

    /** The manager hands out the plugin's client. */
    predicate Obtainable(kind: Kind, key: Key)
      reads this
    {
      isStarted && key in (match kind case Source => sourceSide case Executor => executorSide).enabled
    }

    method GetExecutor(name: Key) returns (client: Lookup)
      ensures client == Found <==> Obtainable(Executor, name)
      ensures client == NotStarted <==> !isStarted
    {
      if !isStarted {
        return NotStarted;
      }
      client := if name in executorSide.enabled then Found else NotFound;
    }

    method GetSource(name: Key) returns (client: Lookup)
      ensures client == Found <==> Obtainable(Source, name)
      ensures client == NotStarted <==> !isStarted
    {
      if !isStarted {
        return NotStarted;
      }
      client := if name in sourceSide.enabled then Found else NotFound;
    }

    /** Launches the plugins one by one, each with a watcher; those launched before a failure keep theirs. */
    method CreateClients(kind: Kind, keys: set<Key>, a: Attempt, side: Side) returns (ok: bool, after: Side)
      ensures ok <==> LaunchesAll(a, kind, keys)
      ensures ok ==> after == side.(watching := side.watching + multiset(keys), enabled := keys)
      ensures !ok ==> after.enabled == side.enabled && side.watching <= after.watching <= side.watching + multiset(keys)
    {
      after := side;
      var rest := keys;
      ghost var launched: set<Key> := {};
      while rest != {}
        invariant launched !! rest && launched + rest == keys
        invariant LaunchesAll(a, kind, launched)
        invariant after == side.(watching := side.watching + multiset(launched))
      {
        var key :| key in rest;
        if !a.launches(kind, key) {
          return false, after;
        }
        rest, launched := rest - {key}, launched + {key};
        after := after.(watching := after.watching + multiset{key});
      }
      assert launched == keys;
      return true, after.(enabled := keys);
    }

    /** One attempt: executors first, then sources. */
    method StartOnce(a: Attempt) returns (r: Load)
      modifies this`executorSide, this`sourceSide
      ensures r.Loaded? <==> Succeeds(a, executorsToEnable, sourcesToEnable)
      ensures r.Missing? <==> FindsMissing(a, executorsToEnable)
      ensures LaunchesExecutors(a, executorsToEnable) ==>
        executorSide == old(executorSide).(watching := old(executorSide).watching + multiset(executorsToEnable),
                                           enabled := executorsToEnable)
      ensures r.Missing? && !LaunchesExecutors(a, executorsToEnable) ==> executorSide == old(executorSide)
      ensures r.Loaded? ==>
        sourceSide == old(sourceSide).(watching := old(sourceSide).watching + multiset(sourcesToEnable),
                                       enabled := sourcesToEnable)
      ensures r.Missing? ==> sourceSide == old(sourceSide)
    {
      if !a.index.Loaded? {
        return a.index;
      }
      if !a.executors.Loaded? {
        return a.executors;
      }
      var launched;
      launched, executorSide := CreateClients(Executor, executorsToEnable, a, executorSide);
      if !launched {
        return Broken;
      }
      if !a.sources.Loaded? {
        return a.sources;
      }
      launched, sourceSide := CreateClients(Source, sourcesToEnable, a, sourceSide);
      return if launched then Loaded else Broken;
    }

    /**
     Starts all plugins, a second time with a fresh repository index when a plugin is missing.

     When the first attempt succeeds, every plugin can be obtained and the supervision protocol starts from its initial
     state. When the second one does, success is reported and every plugin is launched and watched, executors twice if
     the first attempt had launched them, but none can be obtained and nobody listens to the watchers.
     */
    method Start(first: Attempt, forced: Attempt) returns (ok: bool)
      requires !isStarted && !monitorRunning && executorSide == StartSide({}) && sourceSide == StartSide({})
      modifies this
      ensures isStarted == monitorRunning
      ensures isStarted <==>
        executorsToEnable + sourcesToEnable != {} && Succeeds(first, executorsToEnable, sourcesToEnable)
      ensures isStarted ==>
        ok && executorSide == StartSide(executorsToEnable) && sourceSide == StartSide(sourcesToEnable)
      ensures ok && !isStarted <==>
        || executorsToEnable + sourcesToEnable == {}
        || (FindsMissing(first, executorsToEnable) && Succeeds(forced, executorsToEnable, sourcesToEnable))
      ensures ok && !isStarted && executorsToEnable + sourcesToEnable != {} ==>
        && sourceSide == WatchedSide(sourcesToEnable, false)
        && executorSide == WatchedSide(executorsToEnable, LaunchesExecutors(first, executorsToEnable))
      ensures forall kind, key :: Obtainable(kind, key) <==>
        Succeeds(first, executorsToEnable, sourcesToEnable) && key in KeysOf(kind)
    {
      if executorsToEnable == {} && sourcesToEnable == {} {
        return true;
      }
      var r := StartOnce(first);
      match r {
        case Loaded =>
        case Missing =>
          r := StartOnce(forced);
          return r.Loaded?;
        case Broken =>
          return false;
      }
      monitorRunning := true;
      isStarted := true;
      return true;
    }
  }

  // ---- after a successful retry --------------------------------------------------------

  /** Some first attempt launches all executors, misses a source, and is followed by an attempt that succeeds. */
  lemma RetryCanSucceed(executors: set<Key>, sources: set<Key>) returns (first: Attempt, forced: Attempt)
    ensures FindsMissing(first, executors) && LaunchesExecutors(first, executors)
    ensures Succeeds(forced, executors, sources)
  {
    first := Attempt(Loaded, Loaded, Missing, (kind, key) => true);
    forced := Attempt(Loaded, Loaded, Loaded, (kind, key) => true);
  }

  /** The state of the protocol in which a successful retry leaves the plugins. */
  function AfterRetry(c: Setup, first: Attempt): State {
    State(WatchedSide(c.sources, false), WatchedSide(c.executors, LaunchesExecutors(first, c.executors)), map[], false,
          [], History(multiset{}, multiset{}, multiset{}))
  }

  /** The supervisor loops are not running, so nothing is taken from their channels. */
  ghost predicate NobodyReceives(es: seq<Event>) {
    forall e | e in es :: !e.Receive?
  }

  ghost predicate BothIdle(s: State) {
    s.source.phase.Idle? && s.executor.phase.Idle?
  }

  /** Only watchers of the plugin have failed, and nothing came of it. */
  ghost predicate OnlyBlocked(s: State, t: State, kind: Kind, key: Key) {
    && t.Of(kind).enabled == s.Of(kind).enabled
    && t.Of(kind).watching[key] + t.Of(kind).blocked[key] == s.Of(kind).watching[key] + s.Of(kind).blocked[key]
    && t.counts == s.counts && t.notified == s.notified && t.exited == s.exited
  }

  lemma OnlyBlockedStep(c: Setup, s: State, e: Event, kind: Kind, key: Key)
    requires Enabled(c, s, e) && !e.Receive? && BothIdle(s)
    ensures e.WatcherFails? && BothIdle(Next(c, s, e)) && OnlyBlocked(s, Next(c, s, e), kind, key)
  {
  }

  /** Without a loop that receives, nothing happens but watchers failing. */
  lemma {:induction false} OnlyWatchersFail(c: Setup, s: State, es: seq<Event>, t: State, kind: Kind, key: Key)
    requires Run(c, s, es, t) && NobodyReceives(es) && BothIdle(s)
    ensures (forall e | e in es :: e.WatcherFails?) && OnlyBlocked(s, t, kind, key)
    decreases |es|
  {
    if es != [] {
      assert es[0] in es && forall e | e in es[1..] :: e in es;
      OnlyBlockedStep(c, s, es[0], kind, key);
      OnlyWatchersFail(c, Next(c, s, es[0]), es[1..], t, kind, key);
      assert forall e | e in es :: e == es[0] || e in es[1..];
    }
  }

  /**
   After a successful retry, plugins that fail stay enabled and their watchers stay blocked: no failure is ever handled,
   counted or notified, and every plugin is reported as running.
   */
  lemma UnmonitoredIsNeverRestarted(c: Setup, first: Attempt, es: seq<Event>, t: State, kind: Kind, key: Key)
    requires Run(c, AfterRetry(c, first), es, t) && NobodyReceives(es)
    ensures forall e | e in es :: e.WatcherFails?
    ensures t.Of(kind).enabled == c.Keys(kind) && StatusOf(t.counts, c.threshold, key) == Running
    ensures t.counts == map[] && t.notified == [] && !t.exited
    ensures var watchers := if kind.Executor? && LaunchesExecutors(first, c.executors) then 2 else 1;
            key in c.Keys(kind) ==> t.Of(kind).watching[key] + t.Of(kind).blocked[key] == watchers
  {
    OnlyWatchersFail(c, AfterRetry(c, first), es, t, kind, key);
  }
}
