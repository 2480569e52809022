/** The streams the scheduler has opened, and the log of dispatches and restarts that explains them. */
module Streams {
  datatype StreamEvent = Dispatched(plugin: string, key: string) | Restarted(plugin: string)

  /** The stream has been dispatched and its plugin not restarted since. */
  predicate Open(log: seq<StreamEvent>, plugin: string, key: string) {
    if log == [] then false
    else
      match log[|log| - 1]
      case Dispatched(p, k) => (p == plugin && k == key) || Open(log[..|log| - 1], plugin, key)
      case Restarted(p) => p != plugin && Open(log[..|log| - 1], plugin, key)
  }

  /** The stream was dispatched at `i`, and its plugin was not restarted afterwards. */
  predicate OpenSince(log: seq<StreamEvent>, plugin: string, key: string, i: nat) {
    i < |log| && log[i] == Dispatched(plugin, key) && forall j | i < j < |log| :: log[j] != Restarted(plugin)
  }

  lemma {:induction false} OpenMeaning(log: seq<StreamEvent>, plugin: string, key: string)
    ensures Open(log, plugin, key) <==> exists i: nat :: OpenSince(log, plugin, key, i)
  {
    if log != [] {
      var init, last := log[..|log| - 1], log[|log| - 1];
      OpenMeaning(init, plugin, key);
      if i: nat :| OpenSince(init, plugin, key, i) {
        assert last != Restarted(plugin) ==> OpenSince(log, plugin, key, i);
      }
      if i: nat :| OpenSince(log, plugin, key, i) {
        assert i < |init| ==> OpenSince(init, plugin, key, i);
      }
      assert last == Dispatched(plugin, key) ==> OpenSince(log, plugin, key, |init|);
    }
  }

  /** No stream is dispatched while it is open. */
  ghost predicate NeverTwice(log: seq<StreamEvent>) {
    forall i | 0 <= i < |log| :: log[i].Dispatched? ==> !Open(log[..i], log[i].plugin, log[i].key)
  }

  lemma OpenNext(log: seq<StreamEvent>, e: StreamEvent, plugin: string, key: string)
    ensures Open(log + [e], plugin, key) <==>
      if e.Dispatched? then (e.plugin == plugin && e.key == key) || Open(log, plugin, key)
      else e.plugin != plugin && Open(log, plugin, key)
  {
    assert (log + [e])[..|log|] == log;
  }

  lemma NeverTwiceNext(log: seq<StreamEvent>, e: StreamEvent)
    requires NeverTwice(log) && (e.Dispatched? ==> !Open(log, e.plugin, e.key))
    ensures NeverTwice(log + [e])
  {
    var next := log + [e];
    forall i | 0 <= i < |next| && next[i].Dispatched? ensures !Open(next[..i], next[i].plugin, next[i].key) {
      assert next[..i] == log[..i];
      assert log[..|log|] == log;
    }
  }

  lemma {:induction false} OpenUntilRestart(log: seq<StreamEvent>, i: nat, j: nat)
    requires i < j <= |log| && log[i].Dispatched?
    requires forall m | i < m < j :: log[m] != Restarted(log[i].plugin)
    ensures Open(log[..j], log[i].plugin, log[i].key)
    decreases j
  {
    assert log[..j][..j - 1] == log[..j - 1];
    if i < j - 1 {
      OpenUntilRestart(log, i, j - 1);
    }
  }

  /** Between two dispatches of the same stream its plugin was restarted. */
  lemma RestartBetweenDispatches(log: seq<StreamEvent>, i: nat, j: nat)
    requires NeverTwice(log) && i < j < |log| && log[i].Dispatched? && log[i] == log[j]
    ensures exists m | i < m < j :: log[m] == Restarted(log[i].plugin)
  {
    if forall m | i < m < j :: log[m] != Restarted(log[i].plugin) {
      OpenUntilRestart(log, i, j);
    }
  }

  type StreamTable = map<string, set<string>>

  predicate Tracked(data: StreamTable, plugin: string, key: string) {
    plugin in data && key in data[plugin]
  }

  ghost predicate Agrees(data: StreamTable, log: seq<StreamEvent>) {
    forall plugin, key :: Tracked(data, plugin, key) <==> Open(log, plugin, key)
  }

  lemma AgreesDispatched(data: StreamTable, next: StreamTable, log: seq<StreamEvent>, plugin: string, key: string)
    requires Agrees(data, log)
    requires forall p, k :: Tracked(next, p, k) <==> Tracked(data, p, k) || (p == plugin && k == key)
    ensures Agrees(next, log + [Dispatched(plugin, key)])
  {
    forall p, k ensures Tracked(next, p, k) <==> Open(log + [Dispatched(plugin, key)], p, k) {
      OpenNext(log, Dispatched(plugin, key), p, k);
    }
  }

  class OpenedStreams {
    var data: StreamTable
    ghost var log: seq<StreamEvent>

    ghost predicate Valid()
      reads this
    {
      && NeverTwice(log)
      && Agrees(data, log)
    }

    constructor ()
      ensures Valid() && log == []
    {
      data, log := map[], [];
    }

    method ReportStartedStreamWithConfiguration(plugin: string, configuration: string)
      requires Valid() && !Open(log, plugin, configuration)
      modifies this
      ensures Valid() && log == old(log) + [Dispatched(plugin, configuration)]
    {
      var e := Dispatched(plugin, configuration);
      NeverTwiceNext(log, e);
      ghost var before := data;
      if plugin !in data {
        data := data[plugin := {}];
      }
      data := data[plugin := data[plugin] + {configuration}];
      AgreesDispatched(before, data, log, plugin, configuration);
      log := log + [e];
    }

    method DeleteAllStartedStreamsForPlugin(plugin: string)
      requires Valid()
      modifies this
      ensures Valid() && log == old(log) + [Restarted(plugin)]
    {
      NeverTwiceNext(log, Restarted(plugin));
      forall p, k { OpenNext(log, Restarted(plugin), p, k); }
      data := data - {plugin};
      log := log + [Restarted(plugin)];
    }

    method IsStartedStreamWithConfiguration(plugin: string, configuration: string) returns (started: bool)
      requires Valid()
      ensures started <==> Open(log, plugin, configuration)
    {
      started := plugin in data && configuration in data[plugin];
    }
  }
}
