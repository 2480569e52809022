/**
 Routing of Kubernetes events: all source configurations are compiled into a table from
 resource and event type to routes, and observed events are matched against the routes.

 Maps are iterated in an arbitrary order. The specification of the table is therefore
 given per source: the routes of one source, in order, are `GroupRoutes`.
 */
module Routing {
  import opened Options
  import opened KubernetesConfig

  datatype Route = Route(source: string, resourceName: RegexConstraints, labels: Option<map<string, string>>,
                         annotations: Option<map<string, string>>, namespaces: Option<RegexConstraints>,
                         updateSetting: Option<UpdateSetting>, event: Option<KubernetesEvent>)

  datatype Entry = Entry(event: EventType, routes: seq<Route>)

  type Table = map<string, seq<Entry>>

  function Get<K, V>(m: map<K, seq<V>>, key: K): seq<V> {
    if key in m then m[key] else []
  }

  function Repeat<T>(x: T, n: nat): seq<T> {
    seq(n, _ => x)
  }

  function Occurrences<T(==)>(xs: seq<T>, x: T): nat {
    if xs == [] then 0 else Occurrences(xs[..|xs| - 1], x) + (if xs[|xs| - 1] == x then 1 else 0)
  }

  // ---- effective settings of a resource --------------------------------------

  function ResourceNamespaces(source: Option<RegexConstraints>,
                              resource: Option<RegexConstraints>): Option<RegexConstraints> {
    if resource.Some? && resource.value.AreConstraintsDefined() then resource else source
  }

  function ResourceStringMap(source: Option<map<string, string>>,
                             resource: map<string, string>): Option<map<string, string>> {
    if |resource| > 0 then Some(resource) else source
  }

  function ResourceEvent(source: KubernetesEvent, resource: KubernetesEvent): KubernetesEvent {
    if resource.AreConstraintsDefined() then resource else source
  }

  const EXPANSION_OF_ALL := [CreateEvent, UpdateEvent, DeleteEvent, ErrorEvent]

  function Flattened(types: seq<EventType>): seq<EventType> {
    if types == [] then []
    else
      var last := types[|types| - 1];
      Flattened(types[..|types| - 1]) + (if last == AllEvent then EXPANSION_OF_ALL else [last])
  }

  function EventTypes(cfg: Config, r: Resource): seq<EventType>
    requires cfg.event.Some?
  {
    Flattened(if |r.event.types| > 0 then r.event.types else cfg.event.value.types)
  }

  method FlattenEventTypes(globalEvents: seq<EventType>, resourceEvents: seq<EventType>) returns (out: seq<EventType>)
    ensures out == Flattened(if |resourceEvents| > 0 then resourceEvents else globalEvents)
  {
    var checkEvents := globalEvents;
    if |resourceEvents| > 0 {
      checkEvents := resourceEvents;
    }
    out := [];
    for i := 0 to |checkEvents|
      invariant out == Flattened(checkEvents[..i])
    {
      assert checkEvents[..i + 1][..i] == checkEvents[..i];
      if checkEvents[i] == AllEvent {
        out := out + [CreateEvent, UpdateEvent, DeleteEvent, ErrorEvent];
      } else {
        out := out + [checkEvents[i]];
      }
    }
    assert checkEvents[..|checkEvents|] == checkEvents;
  }

  // ---- the routes of one source ----------------------------------------------

  function MakeRoute(name: string, cfg: Config, r: Resource, e: EventType): Route
    requires cfg.event.Some?
  {
    Route(name, r.name, ResourceStringMap(cfg.labels, r.labels), ResourceStringMap(cfg.annotations, r.annotations),
          ResourceNamespaces(cfg.namespaces, Some(r.namespaces)),
          if e == UpdateEvent then Some(r.updateSetting) else None,
          Some(ResourceEvent(cfg.event.value, r.event)))
  }

  /** Routes the resources `rs` of a source configure for a resource kind and an event type. */
  function ExplicitRoutes(name: string, cfg: Config, rs: seq<Resource>, kind: string, e: EventType): seq<Route>
    requires cfg.event.Some? || rs == []
  {
    if rs == [] then []
    else
      var r := rs[|rs| - 1];
      ExplicitRoutes(name, cfg, rs[..|rs| - 1], kind, e) + ResourceRoutes(name, cfg, r, EventTypes(cfg, r), kind, e)
  }

  /** One route for every occurrence of `e` among the event types of the resource. */
  function ResourceRoutes(name: string, cfg: Config, r: Resource, events: seq<EventType>, kind: string,
                          e: EventType): seq<Route>
    requires cfg.event.Some?
  {
    if r.kind == kind then Repeat(MakeRoute(name, cfg, r, e), Occurrences(events, e)) else []
  }

  function RecommendationRoute(name: string, namespaces: Option<RegexConstraints>): Route {
    Route(name, NO_CONSTRAINTS, None, None, namespaces, None, Some(KubernetesEvent(NO_CONSTRAINTS, NO_CONSTRAINTS, [])))
  }

  function Recommends(cfg: Config, kind: string, e: EventType): bool {
    kind in cfg.recommended && cfg.recommended[kind] == e
  }

  /** A recommendation replaces the first explicit route of its source, or adds one when there is none. */
  function Overridden(name: string, cfg: Config, routes: seq<Route>): seq<Route> {
    if routes == [] then [RecommendationRoute(name, cfg.namespaces)]
    else [RecommendationRoute(name, ResourceNamespaces(cfg.namespaces, routes[0].namespaces))] + routes[1..]
  }

  function GroupRoutes(name: string, cfg: Config, kind: string, e: EventType): seq<Route>
    requires cfg.Usable()
  {
    var explicit := ExplicitRoutes(name, cfg, cfg.resources, kind, e);
    if Recommends(cfg, kind, e) then Overridden(name, cfg, explicit) else explicit
  }

  predicate ConfiguredIn(cfg: Config, rs: seq<Resource>, kind: string, e: EventType)
    requires cfg.event.Some? || rs == []
  {
    exists i | 0 <= i < |rs| :: rs[i].kind == kind && e in EventTypes(cfg, rs[i])
  }

  /** The source configures the event type for the resource kind, explicitly or through recommendations. */
  predicate Configured(cfg: Config, kind: string, e: EventType)
    requires cfg.Usable()
  {
    ConfiguredIn(cfg, cfg.resources, kind, e) || Recommends(cfg, kind, e)
  }

  // ---- routes by source ------------------------------------------------------

  function RoutesOf(routes: seq<Route>, name: string): seq<Route> {
    if routes == [] then []
    else
      var last := routes[|routes| - 1];
      RoutesOf(routes[..|routes| - 1], name) + (if last.source == name then [last] else [])
  }

  lemma {:induction false} RoutesOfAppend(a: seq<Route>, b: seq<Route>, name: string)
    ensures RoutesOf(a + b, name) == RoutesOf(a, name) + RoutesOf(b, name)
  {
    if b == [] {
      assert a + b == a;
    } else {
      assert (a + b)[..|a + b| - 1] == a + b[..|b| - 1];
      RoutesOfAppend(a, b[..|b| - 1], name);
    }
  }

  lemma {:induction false} RoutesOfUniform(routes: seq<Route>, source: string, name: string)
    requires forall r | r in routes :: r.source == source
    ensures RoutesOf(routes, name) == if name == source then routes else []
  {
    if routes != [] {
      RoutesOfUniform(routes[..|routes| - 1], source, name);
    }
  }

  lemma {:induction false} RoutesOfMember(routes: seq<Route>, r: Route)
    ensures r in routes <==> r in RoutesOf(routes, r.source)
    ensures multiset(RoutesOf(routes, r.source))[r] == multiset(routes)[r]
  {
    if routes != [] {
      var init := routes[..|routes| - 1];
      RoutesOfMember(init, r);
      assert routes == init + [routes[|routes| - 1]];
    }
  }

  lemma {:induction false} ExplicitFromSource(name: string, cfg: Config, rs: seq<Resource>, kind: string, e: EventType)
    requires cfg.event.Some? || rs == []
    ensures forall r | r in ExplicitRoutes(name, cfg, rs, kind, e) :: r.source == name
  {
    if rs != [] {
      ExplicitFromSource(name, cfg, rs[..|rs| - 1], kind, e);
    }
  }

  lemma GroupFromSource(name: string, cfg: Config, kind: string, e: EventType)
    requires cfg.Usable()
    ensures forall r | r in GroupRoutes(name, cfg, kind, e) :: r.source == name
  {
    ExplicitFromSource(name, cfg, cfg.resources, kind, e);
  }

  lemma {:induction false} OccurrencesPositive<T>(xs: seq<T>, x: T)
    ensures Occurrences(xs, x) > 0 <==> x in xs
  {
    if xs != [] {
      OccurrencesPositive(xs[..|xs| - 1], x);
      assert xs == xs[..|xs| - 1] + [xs[|xs| - 1]];
    }
  }

  lemma ConfiguredInLast(cfg: Config, rs: seq<Resource>, kind: string, e: EventType)
    requires cfg.event.Some? && rs != []
    ensures ConfiguredIn(cfg, rs, kind, e) <==>
      (ConfiguredIn(cfg, rs[..|rs| - 1], kind, e)
       || (rs[|rs| - 1].kind == kind && e in EventTypes(cfg, rs[|rs| - 1])))
  {
    var init := rs[..|rs| - 1];
    if ConfiguredIn(cfg, init, kind, e) {
      var i :| 0 <= i < |init| && init[i].kind == kind && e in EventTypes(cfg, init[i]);
      assert rs[i] == init[i];
    }
    if ConfiguredIn(cfg, rs, kind, e) {
      var i :| 0 <= i < |rs| && rs[i].kind == kind && e in EventTypes(cfg, rs[i]);
      if i < |init| {
        assert init[i] == rs[i];
      }
    }
  }

  lemma {:induction false} ExplicitIffConfigured(name: string, cfg: Config, rs: seq<Resource>, kind: string,
                                                 e: EventType)
    requires cfg.event.Some? || rs == []
    ensures |ExplicitRoutes(name, cfg, rs, kind, e)| > 0 <==> ConfiguredIn(cfg, rs, kind, e)
  {
    if rs != [] {
      ConfiguredInLast(cfg, rs, kind, e);
      OccurrencesPositive(EventTypes(cfg, rs[|rs| - 1]), e);
      ExplicitIffConfigured(name, cfg, rs[..|rs| - 1], kind, e);
    }
  }

  /**
   The two passes over the configurations agree: a source contributes a route exactly where it contributes an event.
   */
  lemma GroupIffConfigured(name: string, cfg: Config, kind: string, e: EventType)
    requires cfg.Usable()
    ensures GroupRoutes(name, cfg, kind, e) != [] <==> Configured(cfg, kind, e)
  {
    ExplicitIffConfigured(name, cfg, cfg.resources, kind, e);
  }

  // ---- building the table ----------------------------------------------------

  type Configs = cfgs: map<string, SourceConfig> | forall name | name in cfgs :: cfgs[name].cfg.Usable()

  function EventsOf(merged: map<string, set<EventType>>, kind: string): set<EventType> {
    if kind in merged then merged[kind] else {}
  }

  method AddEvents(merged: map<string, set<EventType>>, kind: string, events: seq<EventType>)
    returns (out: map<string, set<EventType>>)
    ensures forall k :: EventsOf(out, k) == EventsOf(merged, k) + (if k == kind then set e | e in events else {})
  {
    out := merged;
    if kind !in out {
      out := out[kind := {}];
    }
    for i := 0 to |events|
      invariant kind in out
      invariant forall k ::
        EventsOf(out, k) == EventsOf(merged, k) + (if k == kind then set e | e in events[..i] else {})
    {
      out := out[kind := out[kind] + {events[i]}];
      assert events[..i + 1] == events[..i] + [events[i]];
    }
    assert events[..|events|] == events;
  }

  method AddSourceEvents(merged: map<string, set<EventType>>, cfg: Config) returns (out: map<string, set<EventType>>)
    requires cfg.Usable()
    ensures forall k, e :: e in EventsOf(out, k) <==> e in EventsOf(merged, k) || Configured(cfg, k, e)
  {
    out := merged;
    for i := 0 to |cfg.resources|
      invariant forall k, e :: e in EventsOf(out, k) <==>
        e in EventsOf(merged, k) || ConfiguredIn(cfg, cfg.resources[..i], k, e)
    {
      var r := cfg.resources[i];
      var events := FlattenEventTypes(cfg.event.value.types, r.event.types);
      var next := AddEvents(out, r.kind, events);
      forall k, e
        ensures e in EventsOf(next, k) <==> e in EventsOf(merged, k) || ConfiguredIn(cfg, cfg.resources[..i + 1], k, e)
      {
        assert cfg.resources[..i + 1][..i] == cfg.resources[..i];
        ConfiguredInLast(cfg, cfg.resources[..i + 1], k, e);
      }
      out := next;
    }
    assert cfg.resources[..|cfg.resources|] == cfg.resources;
    ghost var explicit := out;
    var kinds := cfg.recommended.Keys;
    while kinds != {}
      invariant kinds <= cfg.recommended.Keys
      invariant forall k, e :: e in EventsOf(out, k) <==>
        e in EventsOf(explicit, k) || (k in cfg.recommended.Keys - kinds && cfg.recommended[k] == e)
    {
      var kind :| kind in kinds;
      out := AddEvents(out, kind, [cfg.recommended[kind]]);
      kinds := kinds - {kind};
    }
  }

  ghost predicate ConfiguredBySome(cfgs: Configs, names: set<string>, kind: string, e: EventType)
    requires names <= cfgs.Keys
  {
    exists name | name in names :: Configured(cfgs[name].cfg, kind, e)
  }

  method MergeResourceEvents(cfgs: Configs) returns (out: map<string, set<EventType>>)
    ensures forall kind, e :: e in EventsOf(out, kind) <==> ConfiguredBySome(cfgs, cfgs.Keys, kind, e)
  {
    out := map[];
    var names := cfgs.Keys;
    while names != {}
      invariant names <= cfgs.Keys
      invariant forall kind, e :: e in EventsOf(out, kind) <==> ConfiguredBySome(cfgs, cfgs.Keys - names, kind, e)
    {
      var name :| name in names;
      var next := AddSourceEvents(out, cfgs[name].cfg);
      assert cfgs.Keys - (names - {name}) == cfgs.Keys - names + {name};
      out, names := next, names - {name};
    }
    assert cfgs.Keys - names == cfgs.Keys;
  }

  /** For every source in `done`, `routes` holds its group routes in order, and nothing from other sources. */
  ghost predicate Groups(routes: seq<Route>, cfgs: Configs, done: set<string>, kind: string, e: EventType)
    requires done <= cfgs.Keys
  {
    forall name :: RoutesOf(routes, name) == if name in done then GroupRoutes(name, cfgs[name].cfg, kind, e) else []
  }

  /** Routes by event type for one resource kind, while the sources in `done` have been merged. */
  ghost predicate Merged(out: map<EventType, seq<Route>>, cfgs: Configs, done: set<string>, kind: string)
    requires done <= cfgs.Keys
  {
    forall e :: Groups(Get(out, e), cfgs, done, kind, e)
  }

  lemma ResourceRoutesNext(name: string, cfg: Config, r: Resource, events: seq<EventType>, last: EventType,
                           kind: string, e: EventType)
    requires cfg.event.Some? && kind == r.kind
    ensures ResourceRoutes(name, cfg, r, events + [last], kind, e)
      == ResourceRoutes(name, cfg, r, events, kind, e) + (if e == last then [MakeRoute(name, cfg, r, e)] else [])
  {
    assert (events + [last])[..|events|] == events;
  }

  lemma AppendAssociates<T>(a: seq<T>, b: seq<T>, c: seq<T>)
    ensures (a + b) + c == a + (b + c)
  {
  }

  method AddResourceRoutes(before: map<EventType, seq<Route>>, name: string, cfg: Config, r: Resource, kind: string)
    returns (out: map<EventType, seq<Route>>)
    requires cfg.event.Some?
    ensures forall e :: Get(out, e) == Get(before, e) + ResourceRoutes(name, cfg, r, EventTypes(cfg, r), kind, e)
  {
    out := before;
    var events := FlattenEventTypes(cfg.event.value.types, r.event.types);
    for j := 0 to |events|
      invariant forall e :: Get(out, e) == Get(before, e) + ResourceRoutes(name, cfg, r, events[..j], kind, e)
    {
      ghost var prev := out;
      if kind == r.kind {
        out := AddRoute(out, name, cfg, r, events[j]);
      }
      forall e ensures Get(out, e) == Get(before, e) + ResourceRoutes(name, cfg, r, events[..j + 1], kind, e) {
        assert Get(prev, e) == Get(before, e) + ResourceRoutes(name, cfg, r, events[..j], kind, e);
        if kind == r.kind {
          var added := if e == events[j] then [MakeRoute(name, cfg, r, e)] else [];
          assert events[..j + 1] == events[..j] + [events[j]];
          ResourceRoutesNext(name, cfg, r, events[..j], events[j], kind, e);
          AppendAssociates(Get(before, e), ResourceRoutes(name, cfg, r, events[..j], kind, e), added);
        }
      }
    }
    assert events[..|events|] == events;
  }

  method AddRoute(routes: map<EventType, seq<Route>>, name: string, cfg: Config, r: Resource, event: EventType)
    returns (out: map<EventType, seq<Route>>)
    requires cfg.event.Some?
    ensures forall e :: Get(out, e) == Get(routes, e) + (if e == event then [MakeRoute(name, cfg, r, e)] else [])
  {
    var route := Route(name, r.name, ResourceStringMap(cfg.labels, r.labels),
                       ResourceStringMap(cfg.annotations, r.annotations),
                       ResourceNamespaces(cfg.namespaces, Some(r.namespaces)), None,
                       Some(ResourceEvent(cfg.event.value, r.event)));
    if event == UpdateEvent {
      route := route.(updateSetting := Some(UpdateSetting(r.updateSetting.fields, r.updateSetting.includeDiff)));
    }
    out := routes[event := Get(routes, event) + [route]];
  }

  lemma ExplicitRoutesNext(name: string, cfg: Config, i: nat, kind: string, e: EventType)
    requires cfg.event.Some? && i < |cfg.resources|
    ensures ExplicitRoutes(name, cfg, cfg.resources[..i + 1], kind, e)
      == ExplicitRoutes(name, cfg, cfg.resources[..i], kind, e)
         + ResourceRoutes(name, cfg, cfg.resources[i], EventTypes(cfg, cfg.resources[i]), kind, e)
  {
    assert cfg.resources[..i + 1][..i] == cfg.resources[..i];
  }

  /** Adds the explicit routes of one source. */
  method AddExplicitRoutes(before: map<EventType, seq<Route>>, name: string, cfg: Config, kind: string)
    returns (out: map<EventType, seq<Route>>)
    requires cfg.Usable()
    ensures forall e :: Get(out, e) == Get(before, e) + ExplicitRoutes(name, cfg, cfg.resources, kind, e)
  {
    out := before;
    for i := 0 to |cfg.resources|
      invariant forall e :: Get(out, e) == Get(before, e) + ExplicitRoutes(name, cfg, cfg.resources[..i], kind, e)
    {
      ghost var prev := out;
      out := AddResourceRoutes(out, name, cfg, cfg.resources[i], kind);
      forall e ensures Get(out, e) == Get(before, e) + ExplicitRoutes(name, cfg, cfg.resources[..i + 1], kind, e) {
        ExplicitRoutesNext(name, cfg, i, kind, e);
        AppendAssociates(Get(before, e), ExplicitRoutes(name, cfg, cfg.resources[..i], kind, e),
                         ResourceRoutes(name, cfg, cfg.resources[i], EventTypes(cfg, cfg.resources[i]), kind, e));
        assert Get(prev, e) == Get(before, e) + ExplicitRoutes(name, cfg, cfg.resources[..i], kind, e);
      }
    }
    assert cfg.resources[..|cfg.resources|] == cfg.resources;
  }

  /** Replaces the first route of the source by a recommendation route, or appends one. */
  method OverrideFirstRoute(current: seq<Route>, name: string, cfg: Config, ghost others: seq<Route>,
                            ghost own: seq<Route>)
    returns (out: seq<Route>)
    requires current == others + own
    requires forall r | r in others :: r.source != name
    requires forall r | r in own :: r.source == name
    ensures out == others + Overridden(name, cfg, own)
  {
    var recommRoute := RecommendationRoute(name, cfg.namespaces);
    assert forall j | 0 <= j < |others| :: current[j] == others[j] && others[j] in others;
    assert forall j | 0 <= j < |own| :: current[|others| + j] == own[j] && own[j] in own;
    for i := 0 to |current|
      invariant i <= |others|
    {
      if current[i].source != name {
        continue;
      }
      assert i == |others|;
      recommRoute := recommRoute.(namespaces := ResourceNamespaces(cfg.namespaces, current[i].namespaces));
      return current[i := recommRoute];
    }
    return current + [recommRoute];
  }

  /** Applies the override to the recommended event. `before` are the routes of the sources merged earlier. */
  method SetEventRouteForRecommendationsIfShould(routes: map<EventType, seq<Route>>, name: string, cfg: Config,
                                                 kind: string, ghost before: map<EventType, seq<Route>>)
    returns (out: map<EventType, seq<Route>>)
    requires cfg.Usable()
    requires forall e, r: Route | r in Get(before, e) :: r.source != name
    requires forall e :: Get(routes, e) == Get(before, e) + ExplicitRoutes(name, cfg, cfg.resources, kind, e)
    ensures forall e :: Get(out, e) == Get(before, e) + GroupRoutes(name, cfg, kind, e)
  {
    out := routes;
    if kind !in cfg.recommended {
      return;
    }
    var event := cfg.recommended[kind];
    ghost var own := ExplicitRoutes(name, cfg, cfg.resources, kind, event);
    ExplicitFromSource(name, cfg, cfg.resources, kind, event);
    var overridden := OverrideFirstRoute(Get(routes, event), name, cfg, Get(before, event), own);
    out := out[event := overridden];
    forall e ensures Get(out, e) == Get(before, e) + GroupRoutes(name, cfg, kind, e) {
      if e != event {
        assert !Recommends(cfg, kind, e) && Get(out, e) == Get(routes, e);
      }
    }
  }

  lemma RoutesOfNext(before: seq<Route>, own: seq<Route>, name: string, n: string)
    requires forall r | r in own :: r.source == name
    ensures RoutesOf(before + own, n) == RoutesOf(before, n) + (if n == name then own else [])
  {
    RoutesOfAppend(before, own, n);
    RoutesOfUniform(own, name, n);
  }

  lemma GroupsNext(before: seq<Route>, cfgs: Configs, done: set<string>, name: string, kind: string, e: EventType)
    requires done <= cfgs.Keys && name in cfgs && name !in done && Groups(before, cfgs, done, kind, e)
    ensures Groups(before + GroupRoutes(name, cfgs[name].cfg, kind, e), cfgs, done + {name}, kind, e)
  {
    var own := GroupRoutes(name, cfgs[name].cfg, kind, e);
    GroupFromSource(name, cfgs[name].cfg, kind, e);
    forall n { RoutesOfNext(before, own, name, n); }
  }

  lemma GroupsMember(routes: seq<Route>, cfgs: Configs, done: set<string>, kind: string, e: EventType, r: Route)
    requires done <= cfgs.Keys && Groups(routes, cfgs, done, kind, e)
    ensures r in routes <==> r.source in done && r in GroupRoutes(r.source, cfgs[r.source].cfg, kind, e)
  {
    RoutesOfMember(routes, r);
    if r.source in done {
      GroupFromSource(r.source, cfgs[r.source].cfg, kind, e);
    }
  }

  method MergeEventRoutes(kind: string, cfgs: Configs) returns (out: map<EventType, seq<Route>>)
    ensures Merged(out, cfgs, cfgs.Keys, kind)
  {
    out := map[];
    var names := cfgs.Keys;
    while names != {}
      invariant names <= cfgs.Keys
      invariant Merged(out, cfgs, cfgs.Keys - names, kind)
    {
      var name :| name in names;
      ghost var before, done := out, cfgs.Keys - names;
      forall e, r: Route | r in Get(before, e) ensures r.source != name {
        GroupsMember(Get(before, e), cfgs, done, kind, e, r);
      }
      out := AddExplicitRoutes(out, name, cfgs[name].cfg, kind);
      out := SetEventRouteForRecommendationsIfShould(out, name, cfgs[name].cfg, kind, before);
      names := names - {name};
      assert cfgs.Keys - names == done + {name};
      forall e ensures Groups(Get(out, e), cfgs, done + {name}, kind, e) {
        GroupsNext(Get(before, e), cfgs, done, name, kind, e);
      }
    }
    assert cfgs.Keys - names == cfgs.Keys;
  }

  /** Routes of all entries for an event type. */
  function EntriesRoutes(entries: seq<Entry>, e: EventType): seq<Route> {
    if entries == [] then []
    else
      var last := entries[|entries| - 1];
      EntriesRoutes(entries[..|entries| - 1], e) + (if last.event == e then last.routes else [])
  }

  function TableRoutes(table: Table, kind: string, e: EventType): seq<Route> {
    EntriesRoutes(Get(table, kind), e)
  }

  method EventRoutes(table: Table, targetResource: string, targetEvent: EventType) returns (out: seq<Route>)
    ensures out == TableRoutes(table, targetResource, targetEvent)
  {
    out := [];
    var entries := Get(table, targetResource);
    for i := 0 to |entries|
      invariant out == EntriesRoutes(entries[..i], targetEvent)
    {
      assert entries[..i + 1][..i] == entries[..i];
      if entries[i].event == targetEvent {
        out := out + entries[i].routes;
      }
    }
    assert entries[..|entries|] == entries;
  }

  /** The entries for a resource kind are those of exactly these configurations, and none of them is empty. */
  ghost predicate BuiltFor(table: Table, cfgs: Configs, kind: string) {
    && (forall e :: Groups(TableRoutes(table, kind, e), cfgs, cfgs.Keys, kind, e))
    && (forall entry: Entry | entry in Get(table, kind) :: entry.routes != [])
  }

  /** `table` routes the events of exactly these configurations. */
  ghost predicate Built(table: Table, cfgs: Configs) {
    forall kind :: BuiltFor(table, cfgs, kind)
  }

  lemma BuiltForUnconfigured(table: Table, cfgs: Configs, kind: string)
    requires kind !in table && forall e :: !ConfiguredBySome(cfgs, cfgs.Keys, kind, e)
    ensures BuiltFor(table, cfgs, kind)
  {
    forall e, name ensures name in cfgs ==> GroupRoutes(name, cfgs[name].cfg, kind, e) == [] {
      if name in cfgs {
        GroupIffConfigured(name, cfgs[name].cfg, kind, e);
        assert !ConfiguredBySome(cfgs, cfgs.Keys, kind, e);
      }
    }
  }

  lemma EntriesRoutesNext(entries: seq<Entry>, last: Entry, e: EventType)
    ensures EntriesRoutes(entries + [last], e) == if last.event == e then EntriesRoutes(entries, e) + last.routes
      else EntriesRoutes(entries, e)
  {
    assert (entries + [last])[..|entries|] == entries;
  }

  lemma NoSourceNoRoutes(out: map<EventType, seq<Route>>, cfgs: Configs, kind: string, e: EventType)
    requires Merged(out, cfgs, cfgs.Keys, kind)
    ensures Get(out, e) != [] <==> ConfiguredBySome(cfgs, cfgs.Keys, kind, e)
  {
    if Get(out, e) != [] {
      var r := Get(out, e)[0];
      GroupsMember(Get(out, e), cfgs, cfgs.Keys, kind, e, r);
      GroupIffConfigured(r.source, cfgs[r.source].cfg, kind, e);
    }
    if ConfiguredBySome(cfgs, cfgs.Keys, kind, e) {
      var name :| name in cfgs.Keys && Configured(cfgs[name].cfg, kind, e);
      GroupIffConfigured(name, cfgs[name].cfg, kind, e);
      assert RoutesOf(Get(out, e), name) != [];
    }
  }

  /** One entry for each event type in `done`. */
  ghost predicate Indexed(entries: seq<Entry>, done: set<EventType>, routes: map<EventType, seq<Route>>) {
    && (forall e :: EntriesRoutes(entries, e) == if e in done then Get(routes, e) else [])
    && (forall entry: Entry | entry in entries :: entry.event in done && entry.routes == Get(routes, entry.event))
  }

  lemma IndexedNext(entries: seq<Entry>, done: set<EventType>, routes: map<EventType, seq<Route>>, last: Entry,
                    all: seq<Entry>)
    requires Indexed(entries, done, routes) && last.event !in done && last.routes == Get(routes, last.event)
      && all == entries + [last]
    ensures Indexed(all, done + {last.event}, routes)
  {
    forall f ensures EntriesRoutes(all, f) == if f in done + {last.event} then Get(routes, f) else [] {
      EntriesRoutesNext(entries, last, f);
      assert [] + last.routes == last.routes;
    }
  }

  ghost predicate SameElsewhere(before: Table, after: Table, kind: string) {
    forall k | k != kind :: (k in after <==> k in before) && Get(after, k) == Get(before, k)
  }

  /** Entries for these event types are all that was added, to a kind without entries. */
  ghost predicate Extended(before: Table, after: Table, kind: string, done: set<EventType>,
                           routes: map<EventType, seq<Route>>) {
    SameElsewhere(before, after, kind) && Indexed(Get(after, kind), done, routes)
  }

  lemma ExtendedByNothing(table: Table, kind: string, routes: map<EventType, seq<Route>>)
    requires kind !in table
    ensures Extended(table, table, kind, {}, routes)
  {
  }

  lemma ExtendedNext(before: Table, table: Table, kind: string, done: set<EventType>,
                     routes: map<EventType, seq<Route>>, e: EventType)
    requires Extended(before, table, kind, done, routes) && e !in done
    ensures Extended(before, table[kind := Get(table, kind) + [Entry(e, Get(routes, e))]], kind, done + {e}, routes)
  {
    var entry := Entry(e, Get(routes, e));
    IndexedNext(Get(table, kind), done, routes, entry, Get(table, kind) + [entry]);
  }

  class Router {
    var table: Table

    constructor ()
      ensures table == map[]
    {
      table := map[];
    }

    /** Appends one entry for every event type of a resource kind. */
    method AddEntries(kind: string, events: set<EventType>, routes: map<EventType, seq<Route>>)
      requires kind !in table
      modifies this
      ensures Extended(old(table), table, kind, events, routes)
    {
      var remaining := events;
      ghost var done: set<EventType> := {};
      ExtendedByNothing(table, kind, routes);
      while remaining != {}
        invariant done !! remaining && done + remaining == events
        invariant Extended(old(table), table, kind, done, routes)
      {
        var evt :| evt in remaining;
        ExtendedNext(old(table), table, kind, done, routes, evt);
        table := table[kind := Get(table, kind) + [Entry(evt, Get(routes, evt))]];
        remaining, done := remaining - {evt}, done + {evt};
      }
      assert done == events;
    }

    /** Compiles the configurations, starting from the empty table of a new router. */
    method BuildTable(cfgs: Configs)
      requires table == map[]
      modifies this
      ensures Built(table, cfgs)
    {
      var merged := MergeResourceEvents(cfgs);
      var kinds := merged.Keys;
      while kinds != {}
        invariant kinds <= merged.Keys
        invariant forall kind | kind !in merged.Keys - kinds :: kind !in table
        invariant forall kind | kind in merged.Keys - kinds :: BuiltFor(table, cfgs, kind)
      {
        var kind :| kind in kinds;
        var routes := MergeEventRoutes(kind, cfgs);
        ghost var before := table;
        AddEntries(kind, merged[kind], routes);
        forall e ensures Get(routes, e) != [] <==> e in merged[kind] {
          NoSourceNoRoutes(routes, cfgs, kind, e);
          assert e in EventsOf(merged, kind) <==> ConfiguredBySome(cfgs, cfgs.Keys, kind, e);
        }
        forall e ensures Groups(TableRoutes(table, kind, e), cfgs, cfgs.Keys, kind, e) {
          assert TableRoutes(table, kind, e) == Get(routes, e);
        }
        forall k | k in merged.Keys - kinds ensures BuiltFor(table, cfgs, k) {
          assert Get(table, k) == Get(before, k) && BuiltFor(before, cfgs, k);
          forall e ensures Groups(TableRoutes(table, k, e), cfgs, cfgs.Keys, k, e) {
            assert TableRoutes(table, k, e) == TableRoutes(before, k, e);
          }
        }
        kinds := kinds - {kind};
      }
      forall kind ensures BuiltFor(table, cfgs, kind) {
        if kind !in merged {
          forall e ensures !ConfiguredBySome(cfgs, cfgs.Keys, kind, e) {
            assert e !in EventsOf(merged, kind);
          }
          BuiltForUnconfigured(table, cfgs, kind);
        }
      }
    }
  }
}
