/** Analytics counters collected between heartbeats: a heartbeat reports them, and only a successful one clears them. */
module Analytics {
  import opened Options
  import opened Sums

  const MAX_EVENT_DETAILS_COUNT := 75

  datatype SourceEvent = SourceEvent(pluginName: string, details: string, success: bool, error: Option<string>)

  datatype SourceProperties = SourceProperties(eventsCount: int, events: seq<SourceEvent>)

  datatype HeartbeatProperties = HeartbeatProperties(timeWindowInHours: int, eventsCount: int,
                                                     sources: map<string, SourceProperties>)

  // ---- what the counters mean ----------------------------------------------------

  function OfPlugin(events: seq<SourceEvent>, plugin: string): seq<SourceEvent> {
    if events == [] then []
    else
      var init, last := events[..|events| - 1], events[|events| - 1];
      if last.pluginName == plugin then OfPlugin(init, plugin) + [last] else OfPlugin(init, plugin)
  }

  /** The events whose details are kept. */
  function Detailed(events: seq<SourceEvent>): seq<SourceEvent> {
    if |events| <= MAX_EVENT_DETAILS_COUNT then events else events[..MAX_EVENT_DETAILS_COUNT]
  }

  /** What is kept about one plugin after these events. */
  function PropertiesOf(events: seq<SourceEvent>, plugin: string): SourceProperties {
    SourceProperties(|OfPlugin(events, plugin)|, OfPlugin(Detailed(events), plugin))
  }

  /** Every plugin with an event is there, with the number of its events and the details of those among the first 75. */
  ghost predicate Summarises(sources: map<string, SourceProperties>, events: seq<SourceEvent>) {
    forall p :: (p in sources <==> OfPlugin(events, p) != [])
      && (p in sources ==> sources[p] == PropertiesOf(events, p))
  }

  lemma OfPluginNext(events: seq<SourceEvent>, e: SourceEvent, plugin: string)
    ensures OfPlugin(events + [e], plugin) == if e.pluginName == plugin then OfPlugin(events, plugin) + [e]
      else OfPlugin(events, plugin)
  {
    assert (events + [e])[..|events|] == events;
  }

  lemma PropertiesNext(events: seq<SourceEvent>, e: SourceEvent, plugin: string)
    ensures PropertiesOf(events + [e], plugin) ==
            var before := PropertiesOf(events, plugin);
            if e.pluginName != plugin then before
            else SourceProperties(before.eventsCount + 1,
                                  if |events| + 1 <= MAX_EVENT_DETAILS_COUNT then before.events + [e]
                                    else before.events)
  {
    OfPluginNext(events, e, plugin);
    var next := events + [e];
    if |next| <= MAX_EVENT_DETAILS_COUNT {
      assert Detailed(next) == next && Detailed(events) == events;
    } else {
      assert Detailed(next) == events[..MAX_EVENT_DETAILS_COUNT];
      assert |events| == MAX_EVENT_DETAILS_COUNT ==> Detailed(next) == events;
    }
  }

  /** The counters after one more event. */
  function Added(p: HeartbeatProperties, e: SourceEvent): HeartbeatProperties {
    var count := p.eventsCount + 1;
    var source := if e.pluginName in p.sources then p.sources[e.pluginName] else SourceProperties(0, []);
    var events := if count <= MAX_EVENT_DETAILS_COUNT then source.events + [e] else source.events;
    p.(eventsCount := count, sources := p.sources[e.pluginName := SourceProperties(source.eventsCount + 1, events)])
  }

  function Fresh(defaultTimeWindowInHours: int): HeartbeatProperties {
    HeartbeatProperties(defaultTimeWindowInHours, 0, map[])
  }

  lemma OfPluginEmpty(events: seq<SourceEvent>, plugin: string)
    requires OfPlugin(events, plugin) == []
    ensures PropertiesOf(events, plugin) == SourceProperties(0, [])
  {
    OfPluginPrefix(events, |Detailed(events)|, plugin);
    assert Detailed(events) == events[..|Detailed(events)|];
  }

  lemma {:induction false} OfPluginPrefix(events: seq<SourceEvent>, n: nat, plugin: string)
    requires n <= |events|
    ensures |OfPlugin(events[..n], plugin)| <= |OfPlugin(events, plugin)|
    decreases |events|
  {
    if n < |events| {
      OfPluginPrefix(events[..|events| - 1], n, plugin);
      assert events[..|events| - 1][..n] == events[..n];
    } else {
      assert events[..n] == events;
    }
  }

  lemma SummaryNext(p: HeartbeatProperties, events: seq<SourceEvent>, e: SourceEvent)
    requires p.eventsCount == |events| && Summarises(p.sources, events)
    ensures Summarises(Added(p, e).sources, events + [e])
  {
    forall plugin
      ensures (plugin in Added(p, e).sources <==> OfPlugin(events + [e], plugin) != [])
           && (plugin in Added(p, e).sources ==> Added(p, e).sources[plugin] == PropertiesOf(events + [e], plugin))
    {
      OfPluginNext(events, e, plugin);
      PropertiesNext(events, e, plugin);
      if plugin !in p.sources {
        OfPluginEmpty(events, plugin);
      }
    }
  }

  // ---- conservation ----------------------------------------------------------------

  ghost function TotalCount(sources: map<string, SourceProperties>): int {
    Sum(sources.Keys, p => if p in sources then sources[p].eventsCount else 0)
  }

  ghost function TotalDetails(sources: map<string, SourceProperties>): int {
    Sum(sources.Keys, p => if p in sources then |sources[p].events| else 0)
  }

  ghost function CountBy(events: seq<SourceEvent>): string -> int {
    p => |OfPlugin(events, p)|
  }

  /** Splitting events by plugin loses none of them. */
  lemma {:induction false} SplitByPlugin(keys: set<string>, events: seq<SourceEvent>)
    requires forall e | e in events :: e.pluginName in keys
    ensures Sum(keys, CountBy(events)) == |events|
    decreases |events|
  {
    if events == [] {
      SumAtMost(keys, CountBy(events), 0);
    } else {
      var init, last := events[..|events| - 1], events[|events| - 1];
      assert init + [last] == events;
      SplitByPlugin(keys, init);
      forall p ensures CountBy(events)(p) == CountBy(init)(p) + if p == last.pluginName then 1 else 0 {
        OfPluginNext(init, last, p);
      }
      SumChange(keys, CountBy(init), CountBy(events), last.pluginName);
    }
  }

  lemma {:induction false} EventHasPlugin(events: seq<SourceEvent>, e: SourceEvent)
    requires e in events
    ensures OfPlugin(events, e.pluginName) != []
    decreases |events|
  {
    var init, last := events[..|events| - 1], events[|events| - 1];
    assert init + [last] == events;
    if e != last {
      EventHasPlugin(init, e);
    }
  }

  /** The counts of the plugins add up to the number of events, and their details to at most 75 of them. */
  lemma NothingLostByCounting(sources: map<string, SourceProperties>, events: seq<SourceEvent>)
    requires Summarises(sources, events)
    ensures TotalCount(sources) == |events|
    ensures TotalDetails(sources) == if |events| <= 75 then |events| else 75
  {
    forall e | e in events ensures e.pluginName in sources.Keys {
      EventHasPlugin(events, e);
    }
    SplitByPlugin(sources.Keys, events);
    SumEqual(sources.Keys, p => if p in sources then sources[p].eventsCount else 0, CountBy(events));
    assert forall e | e in Detailed(events) :: e in events;
    SplitByPlugin(sources.Keys, Detailed(events));
    SumEqual(sources.Keys, p => if p in sources then |sources[p].events| else 0, CountBy(Detailed(events)));
  }

  // ---- the counters and the reporter -------------------------------------------------

  class Data {
    const defaultTimeWindowInHours: int
    var heartbeatProperties: HeartbeatProperties
    /** The events added and the heartbeats failed since the last reset. */
    ghost var added: seq<SourceEvent>
    ghost var failures: nat

    ghost predicate Valid()
      reads this
    {
      && heartbeatProperties.timeWindowInHours == defaultTimeWindowInHours + failures
      && heartbeatProperties.eventsCount == |added|
      && Summarises(heartbeatProperties.sources, added)
    }

    constructor (defaultTimeWindowInHours: int)
      ensures Valid() && added == [] && failures == 0
      ensures heartbeatProperties == Fresh(defaultTimeWindowInHours)
      ensures this.defaultTimeWindowInHours == defaultTimeWindowInHours
    {
      this.defaultTimeWindowInHours := defaultTimeWindowInHours;
      heartbeatProperties := HeartbeatProperties(defaultTimeWindowInHours, 0, map[]);
      added, failures := [], 0;
    }

    method IncrementTimeWindowInHours()
      requires Valid()
      modifies this
      ensures Valid() && added == old(added) && failures == old(failures) + 1
      ensures heartbeatProperties
        == old(heartbeatProperties).(timeWindowInHours := old(heartbeatProperties).timeWindowInHours + 1)
    {
      heartbeatProperties := heartbeatProperties.(timeWindowInHours := heartbeatProperties.timeWindowInHours + 1);
      failures := failures + 1;
    }

    method Reset()
      requires Valid()
      modifies this
      ensures Valid() && added == [] && failures == 0
      ensures heartbeatProperties == Fresh(defaultTimeWindowInHours)
    {
      heartbeatProperties := heartbeatProperties.(timeWindowInHours := defaultTimeWindowInHours);
      heartbeatProperties := heartbeatProperties.(sources := map[]);
      heartbeatProperties := heartbeatProperties.(eventsCount := 0);
      added, failures := [], 0;
    }

    method AddSourceEvent(event: SourceEvent)
      requires Valid()
      modifies this
      ensures Valid() && added == old(added) + [event] && failures == old(failures)
      ensures heartbeatProperties == Added(old(heartbeatProperties), event)
    {
      SummaryNext(heartbeatProperties, added, event);
      heartbeatProperties := heartbeatProperties.(eventsCount := heartbeatProperties.eventsCount + 1);
      var key := event.pluginName;
      var sourceProps := if key in heartbeatProperties.sources then heartbeatProperties.sources[key]
        else SourceProperties(0, []);
      sourceProps := sourceProps.(eventsCount := sourceProps.eventsCount + 1);
      if heartbeatProperties.eventsCount <= MAX_EVENT_DETAILS_COUNT {
        sourceProps := sourceProps.(events := sourceProps.events + [event]);
      }
      heartbeatProperties := heartbeatProperties.(sources := heartbeatProperties.sources[key := sourceProps]);
      added := added + [event];
    }
  }

  class SegmentReporter {
    const batchedData: Data

    constructor (batchedData: Data)
      ensures this.batchedData == batchedData
    {
      this.batchedData := batchedData;
    }

    /** A handled event is counted as a success. */
    method ReportHandledEventSuccess(plugin: string, details: string)
      requires batchedData.Valid()
      modifies batchedData
      ensures batchedData.Valid()
      ensures batchedData.added == old(batchedData.added) + [SourceEvent(plugin, details, true, None)]
    {
      batchedData.AddSourceEvent(SourceEvent(plugin, details, true, None));
    }

    /** A failure is counted with its error; without an error nothing is counted. */
    method ReportHandledEventError(plugin: string, details: string, err: Option<string>)
      requires batchedData.Valid()
      modifies batchedData
      ensures batchedData.Valid()
      ensures batchedData.added == if err.Some? then old(batchedData.added) + [SourceEvent(plugin, details, false, err)]
        else old(batchedData.added)
    {
      if err.None? {
        return;
      }
      batchedData.AddSourceEvent(SourceEvent(plugin, details, false, err));
    }
  }
}
