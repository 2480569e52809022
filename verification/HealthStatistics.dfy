/**
 Restart counters of plugins, the decision taken on them, and the status they report.
 Plugin keys have the form `repo/name[@version]`.
 */
module HealthStatistics {
  type Key = string

  datatype Policy = DeactivatePlugin | RestartAgent | UnknownPolicy
  datatype Verdict = Restart | Refuse | ExitAgent
  datatype Status = Running | Deactivated

  function CountOf(counts: map<Key, nat>, key: Key): nat {
    if key in counts then counts[key] else 0
  }

  function Bumped(counts: map<Key, nat>, key: Key): map<Key, nat> {
    counts[key := CountOf(counts, key) + 1]
  }

  /** What the monitor does with a plugin whose counter read `restarts` before it was incremented. */
  function Decision(policy: Policy, threshold: int, restarts: nat): Verdict {
    match policy
    case DeactivatePlugin => if restarts < threshold then Restart else Refuse
    case RestartAgent => if restarts >= threshold then ExitAgent else Restart
    case UnknownPolicy => Refuse
  }

  /** Restarts below the threshold under a known policy; only one policy makes the agent exit, at the threshold. */
  lemma DecisionMeaning(policy: Policy, threshold: int, restarts: nat)
    ensures Decision(policy, threshold, restarts) == Restart <==> policy != UnknownPolicy && restarts < threshold
    ensures Decision(policy, threshold, restarts) == ExitAgent <==> policy == RestartAgent && restarts >= threshold
  {
  }

  /** Restarts are granted exactly while the counter read is below this limit. */
  function Limit(policy: Policy, threshold: int): nat {
    if policy == UnknownPolicy || threshold < 0 then 0 else threshold
  }

  function StatusOf(counts: map<Key, nat>, threshold: int, key: Key): Status {
    if key in counts && counts[key] > threshold then Deactivated else Running
  }

  datatype PluginStats = PluginStats(restartCount: nat, restartThreshold: int, lastTransitionTime: string)

  /** The counters shared by both supervisor loops. Every method is one critical section. */
  class HealthStats {
    var pluginStats: map<Key, PluginStats>
    const globalRestartThreshold: int

    ghost predicate Valid()
      reads this
    {
      forall key | key in pluginStats :: pluginStats[key].restartThreshold == globalRestartThreshold
    }

    ghost function Counts(): map<Key, nat>
      reads this
    {
      map key | key in pluginStats :: pluginStats[key].restartCount
    }

    constructor (threshold: int)
      ensures Valid() && Counts() == map[] && globalRestartThreshold == threshold
    {
      pluginStats := map[];
      globalRestartThreshold := threshold;
    }

    method Increment(plugin: Key, now: string)
      requires Valid()
      modifies this
      ensures Valid()
      ensures Counts() == Bumped(old(Counts()), plugin)
      ensures pluginStats
        == old(pluginStats)[plugin := PluginStats(CountOf(old(Counts()), plugin) + 1, globalRestartThreshold, now)]
    {
      if plugin !in pluginStats {
        pluginStats := pluginStats[plugin := PluginStats(0, 0, "")];
      }
      pluginStats := pluginStats[plugin := PluginStats(pluginStats[plugin].restartCount + 1, globalRestartThreshold,
                                                       now)];
    }

    method GetRestartCount(plugin: Key) returns (restarts: nat)
      ensures restarts == CountOf(Counts(), plugin)
    {
      if plugin !in pluginStats {
        return 0;
      }
      return pluginStats[plugin].restartCount;
    }

    method GetStats(plugin: Key) returns (status: Status, restarts: nat, threshold: int, timestamp: string)
      requires Valid()
      ensures status == StatusOf(Counts(), globalRestartThreshold, plugin)
      ensures status == Deactivated <==>
        plugin in pluginStats && pluginStats[plugin].restartCount > globalRestartThreshold
      ensures restarts == CountOf(Counts(), plugin) && threshold == globalRestartThreshold
      ensures timestamp == if plugin in pluginStats then pluginStats[plugin].lastTransitionTime else ""
    {
      status, restarts, threshold, timestamp := Running, 0, globalRestartThreshold, "";
      if plugin !in pluginStats {
        return;
      }
      if pluginStats[plugin].restartCount > pluginStats[plugin].restartThreshold {
        status := Deactivated;
      }
      restarts := pluginStats[plugin].restartCount;
      threshold := pluginStats[plugin].restartThreshold;
      timestamp := pluginStats[plugin].lastTransitionTime;
    }
  }

  /** The decision of one loop when the other does not run in between: `Restart` below the limit only. */
  method ShouldRestartPlugin(stats: HealthStats, policy: Policy, threshold: int, plugin: Key, now: string)
    returns (verdict: Verdict)
    requires stats.Valid()
    modifies stats
    ensures stats.Valid() && stats.Counts() == Bumped(old(stats.Counts()), plugin)
    ensures verdict == Decision(policy, threshold, CountOf(old(stats.Counts()), plugin))
    ensures verdict == Restart <==> CountOf(old(stats.Counts()), plugin) < Limit(policy, threshold)
    ensures verdict == ExitAgent <==> policy == RestartAgent && CountOf(old(stats.Counts()), plugin) >= threshold
  {
    var restarts := stats.GetRestartCount(plugin);
    stats.Increment(plugin, now);
    match policy {
      case DeactivatePlugin => verdict := if restarts < threshold then Restart else Refuse;
      case RestartAgent => verdict := if restarts >= threshold then ExitAgent else Restart;
      case UnknownPolicy => verdict := Refuse;
    }
  }
}
