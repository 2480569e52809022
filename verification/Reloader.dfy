/**
 Polling a remote configuration: newer versions are loaded once, and the agent restarts when one differs from what
 it runs.
 */
module Reloader {
  import opened Options

  datatype Config = Config(content: string)

  /** Loading and comparing configurations; `None` stands for an error. */
  datatype Environment = Environment(load: string -> Option<Config>, diff: (Config, Config) -> Option<seq<string>>)

  datatype Deployment = Deployment(yaml: string, resourceVersion: int)

  /** The answers the services give during one tick; `None` stands for an error. */
  datatype Tick = Tick(version: Option<int>, deployment: Option<Deployment>, restarts: bool)

  datatype Restart = Restart(version: int, before: Config, after: Config)

  datatype State = State(currentCfg: Config, resVersion: int, restarts: seq<Restart>)

  // ---- what a tick does --------------------------------------------------------------

  /** Both queries succeed with a version newer than the current one. */
  predicate Consumes(s: State, t: Tick) {
    && t.version.Some? && t.version.value > s.resVersion
    && t.deployment.Some? && t.deployment.value.resourceVersion > s.resVersion
  }

  predicate Comparable(env: Environment, current: Config, yaml: string) {
    env.load(yaml).Some? && env.diff(current, env.load(yaml).value).Some?
  }

  /** The configuration can be loaded and compared, and differs. */
  predicate Differs(env: Environment, current: Config, yaml: string) {
    Comparable(env, current, yaml) && env.diff(current, env.load(yaml).value).value != []
  }

  function Consumed(env: Environment, s: State, d: Deployment): State {
    if Differs(env, s.currentCfg, d.yaml) then
      var cfg := env.load(d.yaml).value;
      State(cfg, d.resourceVersion, s.restarts + [Restart(d.resourceVersion, s.currentCfg, cfg)])
    else s.(resVersion := d.resourceVersion)
  }

  function TickOf(env: Environment, s: State, t: Tick): State {
    if Consumes(s, t) then Consumed(env, s, t.deployment.value) else s
  }

  /** A restart that fails ends the loop. */
  predicate Fails(env: Environment, s: State, t: Tick) {
    Consumes(s, t) && Differs(env, s.currentCfg, t.deployment.value.yaml) && !t.restarts
  }

  function RunOf(env: Environment, s: State, ticks: seq<Tick>): State
    decreases |ticks|
  {
    if ticks == [] then s
    else if Fails(env, s, ticks[0]) then TickOf(env, s, ticks[0])
    else RunOf(env, TickOf(env, s, ticks[0]), ticks[1..])
  }

  predicate RunFails(env: Environment, s: State, ticks: seq<Tick>)
    decreases |ticks|
  {
    ticks != [] && (Fails(env, s, ticks[0]) || RunFails(env, TickOf(env, s, ticks[0]), ticks[1..]))
  }

  // ---- the reloader --------------------------------------------------------------------

  class VersionHolder {
    var resourceVersion: int

    constructor (resourceVersion: int)
      ensures this.resourceVersion == resourceVersion
    {
      this.resourceVersion := resourceVersion;
    }

    method SetResourceVersion(version: int)
      modifies this
      ensures resourceVersion == version
    {
      resourceVersion := version;
    }
  }

  class RemoteConfigReloader {
    const env: Environment
    const resVerHolders: seq<VersionHolder>
    var currentCfg: Config
    var resVersion: int
    ghost var restarts: seq<Restart>

    ghost function Current(): State
      reads this
    {
      State(currentCfg, resVersion, restarts)
    }

    /** All holders have the reloader's version. */
    ghost predicate InStep()
      reads this, resVerHolders
    {
      forall h | h in resVerHolders :: h.resourceVersion == resVersion
    }

    constructor (env: Environment, cfg: Config, cfgVer: int, holders: seq<VersionHolder>)
      ensures Current() == State(cfg, cfgVer, [])
      ensures this.env == env && resVerHolders == holders
    {
      this.env, resVerHolders := env, holders;
      currentCfg, resVersion, restarts := cfg, cfgVer, [];
    }

    /** An older version than the current one is an error. */
    method CompareResVer(newResVer: int) returns (shouldUpdate: bool, ok: bool)
      ensures ok <==> newResVer >= resVersion
      ensures shouldUpdate <==> newResVer > resVersion
    {
      if newResVer == resVersion {
        return false, true;
      }
      if newResVer < resVersion {
        return false, false;
      }
      return true, true;
    }

    method SetResourceVersionForAll(version: int)
      modifies this`resVersion, resVerHolders
      ensures resVersion == version && InStep()
    {
      resVersion := version;
      for i := 0 to |resVerHolders|
        invariant resVersion == version
        invariant forall j | 0 <= j < i :: resVerHolders[j].resourceVersion == version
      {
        resVerHolders[i].SetResourceVersion(resVersion);
      }
    }

    /** The version counts as consumed even when its configuration cannot be loaded or compared. */
    method ProcessNewConfig(newCfg: string, newResVer: int) returns (shouldRestart: bool, ok: bool)
      modifies this, resVerHolders
      ensures newResVer <= old(resVersion) ==>
        !shouldRestart && Current() == old(Current()) && (old(InStep()) ==> InStep())
      ensures newResVer > old(resVersion) ==>
        Current() == Consumed(env, old(Current()), Deployment(newCfg, newResVer)) && InStep()
        && (shouldRestart <==> Differs(env, old(currentCfg), newCfg))
      ensures newResVer > old(resVersion) ==>
        resVersion == newResVer && forall h | h in resVerHolders :: h.resourceVersion == newResVer
      ensures shouldRestart <==>
        && newResVer > old(resVersion) && env.load(newCfg).Some?
        && env.diff(old(currentCfg), env.load(newCfg).value) !in {None, Some([])}
      ensures currentCfg == if shouldRestart then env.load(newCfg).value else old(currentCfg)
      ensures newResVer <= old(resVersion) ==> (ok <==> newResVer == old(resVersion))
      ensures newResVer > old(resVersion) ==> (ok <==> Comparable(env, old(currentCfg), newCfg))
    {
      var shouldUpdate, compared := CompareResVer(newResVer);
      if !compared {
        return false, false;
      }
      if !shouldUpdate {
        return false, true;
      }
      SetResourceVersionForAll(newResVer);
      var loaded := env.load(newCfg);
      if loaded.None? {
        return false, false;
      }
      var changelog := env.diff(currentCfg, loaded.value);
      if changelog.None? {
        return false, false;
      }
      if changelog.value == [] {
        return false, true;
      }
      restarts := restarts + [Restart(newResVer, currentCfg, loaded.value)];
      currentCfg := loaded.value;
      return true, true;
    }

    /** Runs until the ticks end or a restart fails. */
    method Do(ticks: seq<Tick>) returns (ok: bool)
      modifies this, resVerHolders
      ensures Current() == RunOf(env, old(Current()), ticks)
      ensures ok <==> !RunFails(env, old(Current()), ticks)
      ensures old(InStep()) || resVersion != old(resVersion) ==> InStep()
    {
      for i := 0 to |ticks|
        invariant RunOf(env, old(Current()), ticks) == RunOf(env, Current(), ticks[i..])
        invariant RunFails(env, old(Current()), ticks) <==> RunFails(env, Current(), ticks[i..])
        invariant resVersion >= old(resVersion) && (old(InStep()) || resVersion != old(resVersion) ==> InStep())
      {
        var t := ticks[i];
        assert ticks[i..][0] == t && ticks[i..][1..] == ticks[i + 1..];
        if t.version.None? {
          continue;
        }
        var shouldUpdateCfg, compared := CompareResVer(t.version.value);
        if !compared {
          continue;
        }
        if !shouldUpdateCfg {
          continue;
        }
        if t.deployment.None? {
          continue;
        }
        var shouldRestart, processed := ProcessNewConfig(t.deployment.value.yaml, t.deployment.value.resourceVersion);
        if !processed {
          continue;
        }
        if !shouldRestart {
          continue;
        }
        if !t.restarts {
          return false;
        }
      }
      return true;
    }
  }

  // ---- what runs promise ------------------------------------------------------------------

  predicate Changes(env: Environment, r: Restart) {
    env.diff(r.before, r.after).Some? && env.diff(r.before, r.after).value != []
  }

  /** The restarts lead from one configuration to the other, each with a change, at increasing versions in between. */
  predicate Explains(env: Environment, cfg: Config, version: int, restarts: seq<Restart>, toCfg: Config,
                     toVersion: int) {
    if restarts == [] then cfg == toCfg && version <= toVersion
    else
      var last := restarts[|restarts| - 1];
      last.after == toCfg && last.version <= toVersion && Changes(env, last)
      && Explains(env, cfg, version, restarts[..|restarts| - 1], last.before, last.version - 1)
  }

  lemma ExplainsLonger(env: Environment, cfg: Config, version: int, restarts: seq<Restart>, toCfg: Config,
                       toVersion: int, later: int)
    requires Explains(env, cfg, version, restarts, toCfg, toVersion) && toVersion <= later
    ensures Explains(env, cfg, version, restarts, toCfg, later)
  {
  }

  lemma RestartExplains(env: Environment, cfg: Config, version: int, restarts: seq<Restart>, last: Restart)
    requires Explains(env, cfg, version, restarts, last.before, last.version - 1) && Changes(env, last)
    ensures Explains(env, cfg, version, restarts + [last], last.after, last.version)
  {
    assert (restarts + [last])[..|restarts|] == restarts;
  }

  lemma TickExplains(env: Environment, cfg: Config, version: int, s: State, t: Tick)
    requires Explains(env, cfg, version, s.restarts, s.currentCfg, s.resVersion)
    ensures var next := TickOf(env, s, t); Explains(env, cfg, version, next.restarts, next.currentCfg, next.resVersion)
  {
    var next := TickOf(env, s, t);
    if Consumes(s, t) {
      if next.restarts == s.restarts {
        ExplainsLonger(env, cfg, version, s.restarts, s.currentCfg, s.resVersion, next.resVersion);
      } else {
        ExplainsLonger(env, cfg, version, s.restarts, s.currentCfg, s.resVersion, next.resVersion - 1);
        var last := next.restarts[|next.restarts| - 1];
        assert next.restarts == s.restarts + [last];
        RestartExplains(env, cfg, version, s.restarts, last);
      }
    }
  }

  /** At every moment of every run the restarts explain the configuration and the version. */
  lemma {:induction false} RunExplains(env: Environment, cfg: Config, version: int, s: State, ticks: seq<Tick>)
    requires Explains(env, cfg, version, s.restarts, s.currentCfg, s.resVersion)
    ensures var end := RunOf(env, s, ticks); Explains(env, cfg, version, end.restarts, end.currentCfg, end.resVersion)
    decreases |ticks|
  {
    if ticks != [] {
      TickExplains(env, cfg, version, s, ticks[0]);
      if !Fails(env, s, ticks[0]) {
        RunExplains(env, cfg, version, TickOf(env, s, ticks[0]), ticks[1..]);
      }
    }
  }

  /**
   Explained restarts carry strictly increasing versions, above the first version and up to the last, and each one
   changed something.
   */
  lemma {:induction false} ExplainedVersions(env: Environment, cfg: Config, version: int, restarts: seq<Restart>,
                                             toCfg: Config, toVersion: int)
    requires Explains(env, cfg, version, restarts, toCfg, toVersion)
    ensures version <= toVersion
    ensures forall i | 0 <= i < |restarts| :: version < restarts[i].version <= toVersion && Changes(env, restarts[i])
    ensures forall i, j | 0 <= i < j < |restarts| :: restarts[i].version < restarts[j].version
    decreases |restarts|
  {
    if restarts != [] {
      var init, last := restarts[..|restarts| - 1], restarts[|restarts| - 1];
      ExplainedVersions(env, cfg, version, init, last.before, last.version - 1);
      forall i | 0 <= i < |init| ensures version < restarts[i].version < last.version && Changes(env, restarts[i]) {
        assert init[i] == restarts[i];
      }
      forall i, j | 0 <= i < j < |init| ensures restarts[i].version < restarts[j].version {
        assert init[i] == restarts[i] && init[j] == restarts[j];
      }
    }
  }

  /** Restarts of a run that starts without any. */
  lemma RestartsIncrease(env: Environment, cfg: Config, version: int, ticks: seq<Tick>)
    ensures var end := RunOf(env, State(cfg, version, []), ticks);
            && version <= end.resVersion
            && (forall i, j | 0 <= i < j < |end.restarts| :: end.restarts[i].version < end.restarts[j].version)
            && (forall r | r in end.restarts :: version < r.version <= end.resVersion && Changes(env, r))
            && end.currentCfg == if end.restarts == [] then cfg else end.restarts[|end.restarts| - 1].after
  {
    RunExplains(env, cfg, version, State(cfg, version, []), ticks);
    var end := RunOf(env, State(cfg, version, []), ticks);
    ExplainedVersions(env, cfg, version, end.restarts, end.currentCfg, end.resVersion);
  }

  /** Both answers of the tick are newer than the version. */
  predicate Newer(t: Tick, version: int) {
    && t.version.Some? && t.version.value > version
    && t.deployment.Some? && t.deployment.value.resourceVersion > version
  }

  /** The restart is for the version this tick fetched. */
  predicate RestartedBy(r: Restart, t: Tick) {
    t.deployment.Some? && r.version == t.deployment.value.resourceVersion
  }

  /**
   After a run no tick processed is newer than the agent's version any more, whatever became of its configuration, and
   the version is the first one or that of a tick. All ticks are processed unless a restart failed, and that is the
   last one.
   */
  lemma {:induction false} RunVersion(env: Environment, s: State, ticks: seq<Tick>) returns (n: nat)
    ensures n <= |ticks| && (!RunFails(env, s, ticks) ==> n == |ticks|)
    ensures var end := RunOf(env, s, ticks);
            && (forall k | 0 <= k < n :: !Newer(ticks[k], end.resVersion))
            && end.resVersion >= s.resVersion
            && (end.resVersion == s.resVersion || exists k | 0 <= k < n ::
                  ticks[k].deployment.Some? && ticks[k].deployment.value.resourceVersion == end.resVersion)
    ensures RunFails(env, s, ticks) ==>
      var restarts := RunOf(env, s, ticks).restarts;
      n > 0 && !ticks[n - 1].restarts && restarts != [] && RestartedBy(restarts[|restarts| - 1], ticks[n - 1])
    decreases |ticks|
  {
    if ticks == [] {
      n := 0;
    } else if Fails(env, s, ticks[0]) {
      n := 1;
    } else {
      var next, rest := TickOf(env, s, ticks[0]), ticks[1..];
      var m := RunVersion(env, next, rest);
      n := m + 1;
      var end := RunOf(env, next, rest);
      forall k | 0 <= k < n ensures !Newer(ticks[k], end.resVersion) {
        if k > 0 {
          assert ticks[k] == rest[k - 1];
        }
      }
      if end.resVersion != next.resVersion {
        var k :| 0 <= k < m && rest[k].deployment.Some?
          && rest[k].deployment.value.resourceVersion == end.resVersion;
        assert ticks[k + 1] == rest[k];
      }
      assert m > 0 ==> rest[m - 1] == ticks[n - 1];
    }
  }

  /** In a run that does not fail, every restart succeeded. */
  lemma {:induction false} RestartsSucceeded(env: Environment, s: State, ticks: seq<Tick>, i: nat)
    requires !RunFails(env, s, ticks) && |s.restarts| <= i < |RunOf(env, s, ticks).restarts|
    ensures exists t | t in ticks :: t.restarts && RestartedBy(RunOf(env, s, ticks).restarts[i], t)
    decreases |ticks|
  {
    if ticks != [] {
      var next := TickOf(env, s, ticks[0]);
      if i < |next.restarts| {
        ConsumedOnce(env, next, ticks[1..]);
        assert RunOf(env, s, ticks).restarts[i] == next.restarts[i];
        assert ticks[0] in ticks && ticks[0].restarts;
      } else {
        RestartsSucceeded(env, next, ticks[1..], i);
        var t :| t in ticks[1..] && t.restarts && RestartedBy(RunOf(env, s, ticks).restarts[i], t);
        assert t in ticks;
      }
    }
  }

  /** A version is consumed once: whatever became of it, every later restart is for a newer one. */
  lemma {:induction false} ConsumedOnce(env: Environment, s: State, ticks: seq<Tick>)
    ensures s.restarts <= RunOf(env, s, ticks).restarts
    ensures forall i | |s.restarts| <= i < |RunOf(env, s, ticks).restarts| ::
      RunOf(env, s, ticks).restarts[i].version > s.resVersion
    decreases |ticks|
  {
    if ticks != [] && !Fails(env, s, ticks[0]) {
      var next := TickOf(env, s, ticks[0]);
      ConsumedOnce(env, next, ticks[1..]);
      var all := RunOf(env, next, ticks[1..]).restarts;
      forall i | |s.restarts| <= i < |all| ensures all[i].version > s.resVersion {
        if i < |next.restarts| {
          assert all[i] == next.restarts[i];
        }
      }
    }
  }

  /** The configuration fetched with the last version consumed. */
  function Latest(env: Environment, s: State, ticks: seq<Tick>): Option<string>
    decreases |ticks|
  {
    if ticks == [] then None
    else
      var here := if Consumes(s, ticks[0]) then Some(ticks[0].deployment.value.yaml) else None;
      if Fails(env, s, ticks[0]) then here
      else
        var later := Latest(env, TickOf(env, s, ticks[0]), ticks[1..]);
        if later.Some? then later else here
  }

  /** The configuration is the one fetched, or no different from it; or the fetched one could not be used. */
  predicate UpToDate(env: Environment, cfg: Config, yaml: string) {
    env.load(yaml).None? || cfg == env.load(yaml).value || env.diff(cfg, env.load(yaml).value) in {None, Some([])}
  }

  /**
   After every run the agent's configuration is up to date with the last version consumed, unless that one could not
   be loaded or compared.
   */
  lemma {:induction false} RunsKeepUp(env: Environment, s: State, ticks: seq<Tick>)
    ensures match Latest(env, s, ticks)
            case None => RunOf(env, s, ticks) == s
            case Some(yaml) => UpToDate(env, RunOf(env, s, ticks).currentCfg, yaml)
    decreases |ticks|
  {
    if ticks != [] && !Fails(env, s, ticks[0]) {
      RunsKeepUp(env, TickOf(env, s, ticks[0]), ticks[1..]);
    }
  }
}
