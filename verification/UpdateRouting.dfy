/**
 Which updates a table lets through, compared with a scan of the configurations: every resource entry says itself which
 fields it watches.
 */
module UpdateRouting {
  import opened Options
  import opened KubernetesConfig
  import opened Routing
  import opened EventMatching

  // ---- the naive scan ----------------------------------------------------------------

  /** The entry watches no field, or one that changed. */
  predicate EntryQualifies(before: Fields, after: Fields, r: Resource) {
    r.updateSetting.fields == []
    || exists i | 0 <= i < |r.updateSetting.fields| :: Changed(before, after, r.updateSetting.fields[i])
  }

  predicate EntryYieldsDiff(r: Resource) {
    r.updateSetting.fields != [] && r.updateSetting.includeDiff
  }

  /** How often the first `n` entries of a configuration qualify an update. */
  function QualifyingEntries(before: Fields, after: Fields, cfg: Config, n: nat, kind: string): nat
    requires cfg.Usable() && n <= |cfg.resources|
  {
    if n == 0 then 0
    else
      var r := cfg.resources[n - 1];
      QualifyingEntries(before, after, cfg, n - 1, kind)
      + (if r.kind == kind && EntryQualifies(before, after, r) then Listings(cfg, r, UpdateEvent) else 0)
  }

  /** The differences the first `n` entries ask for. */
  function EntryDiffs(before: Fields, after: Fields, cfg: Config, n: nat, kind: string): seq<string>
    requires cfg.Usable() && n <= |cfg.resources|
  {
    if n == 0 then []
    else
      var r := cfg.resources[n - 1];
      EntryDiffs(before, after, cfg, n - 1, kind)
      + (if r.kind == kind && EntryYieldsDiff(r)
         then Repeat(FieldsDiff(before, after, r.updateSetting.fields), Listings(cfg, r, UpdateEvent)) else [])
  }

  /** A source that listens to updates for recommendations qualifies them, in place of its first entry. */
  function NaiveUpdates(before: Fields, after: Fields, cfg: Config, kind: string): int
    requires cfg.Usable()
  {
    var first := FirstEntry(cfg, |cfg.resources|, kind, UpdateEvent);
    QualifyingEntries(before, after, cfg, |cfg.resources|, kind)
    + if !Listens(cfg, kind, UpdateEvent) || (first.Some? && EntryQualifies(before, after, first.value)) then 0 else 1
  }

  function NaiveDiffs(before: Fields, after: Fields, cfg: Config, kind: string): seq<string>
    requires cfg.Usable()
  {
    var first, diffs := FirstEntry(cfg, |cfg.resources|, kind, UpdateEvent),
                        EntryDiffs(before, after, cfg, |cfg.resources|, kind);
    if Listens(cfg, kind, UpdateEvent) && first.Some? && EntryYieldsDiff(first.value) && diffs != [] then diffs[1..]
    else diffs
  }

  // ---- counting qualifying routes ------------------------------------------------------

  lemma {:induction false} QualifyingAppend(diff: Diff, a: seq<Route>, b: seq<Route>)
    ensures QualifyingCount(diff, a + b) == QualifyingCount(diff, a) + QualifyingCount(diff, b)
    ensures RouteDiffs(diff, a + b) == RouteDiffs(diff, a) + RouteDiffs(diff, b)
  {
    if b == [] {
      assert a + b == a;
    } else {
      assert (a + b)[..|a + b| - 1] == a + b[..|b| - 1];
      QualifyingAppend(diff, a, b[..|b| - 1]);
    }
  }

  lemma {:induction false} QualifyingRepeat(diff: Diff, rt: Route, n: nat)
    ensures QualifyingCount(diff, Repeat(rt, n)) == if Qualifies(diff, rt) then n else 0
    ensures RouteDiffs(diff, Repeat(rt, n))
      == if YieldsDiff(rt) then Repeat(diff(rt.updateSetting.value), n) else []
  {
    if n > 0 {
      assert Repeat(rt, n)[..n - 1] == Repeat(rt, n - 1);
      QualifyingRepeat(diff, rt, n - 1);
      if YieldsDiff(rt) {
        var d := diff(rt.updateSetting.value);
        assert Repeat(d, n) == Repeat(d, n - 1) + [d];
      }
    }
  }

  // ---- the routes of one source --------------------------------------------------------

  lemma EntryRoute(before: Fields, after: Fields, name: string, cfg: Config, r: Resource)
    requires cfg.event.Some?
    ensures var rt := MakeRoute(name, cfg, r, UpdateEvent);
            && (Qualifies(DiffOf(before, after), rt) <==> EntryQualifies(before, after, r))
            && (YieldsDiff(rt) <==> EntryYieldsDiff(r))
            && (YieldsDiff(rt) ==>
                  DiffOf(before, after)(rt.updateSetting.value) == FieldsDiff(before, after, r.updateSetting.fields))
  {
    QualifiesIff(before, after, MakeRoute(name, cfg, r, UpdateEvent));
  }

  lemma EntryUpdates(before: Fields, after: Fields, name: string, cfg: Config, r: Resource, kind: string)
    requires cfg.event.Some?
    ensures var routes, diff := ResourceRoutes(name, cfg, r, EventTypes(cfg, r), kind, UpdateEvent),
                                DiffOf(before, after);
            && QualifyingCount(diff, routes)
               == (if r.kind == kind && EntryQualifies(before, after, r) then Listings(cfg, r, UpdateEvent) else 0)
            && RouteDiffs(diff, routes)
               == (if r.kind == kind && EntryYieldsDiff(r)
                   then Repeat(FieldsDiff(before, after, r.updateSetting.fields), Listings(cfg, r, UpdateEvent))
                     else [])
  {
    EventTypesMeaning(cfg, r, UpdateEvent);
    EntryRoute(before, after, name, cfg, r);
    QualifyingRepeat(DiffOf(before, after), MakeRoute(name, cfg, r, UpdateEvent), Listings(cfg, r, UpdateEvent));
  }

  lemma {:induction false} ExplicitUpdates(before: Fields, after: Fields, name: string, cfg: Config, n: nat,
                                           kind: string)
    requires cfg.Usable() && n <= |cfg.resources|
    ensures var routes := ExplicitRoutes(name, cfg, cfg.resources[..n], kind, UpdateEvent);
            && QualifyingCount(DiffOf(before, after), routes) == QualifyingEntries(before, after, cfg, n, kind)
            && RouteDiffs(DiffOf(before, after), routes) == EntryDiffs(before, after, cfg, n, kind)
  {
    if n > 0 {
      var r := cfg.resources[n - 1];
      assert cfg.resources[..n][..n - 1] == cfg.resources[..n - 1];
      ExplicitUpdates(before, after, name, cfg, n - 1, kind);
      EntryUpdates(before, after, name, cfg, r, kind);
      QualifyingAppend(DiffOf(before, after), ExplicitRoutes(name, cfg, cfg.resources[..n - 1], kind, UpdateEvent),
                       ResourceRoutes(name, cfg, r, EventTypes(cfg, r), kind, UpdateEvent));
    }
  }

  lemma OverriddenUpdates(diff: Diff, name: string, cfg: Config, routes: seq<Route>)
    ensures var out := Overridden(name, cfg, routes);
            && QualifyingCount(diff, out)
               == QualifyingCount(diff, routes) + (if routes != [] && Qualifies(diff, routes[0]) then 0 else 1)
            && RouteDiffs(diff, out)
               == if routes != [] && YieldsDiff(routes[0]) && RouteDiffs(diff, routes) != []
                  then RouteDiffs(diff, routes)[1..] else RouteDiffs(diff, routes)
  {
    var out := Overridden(name, cfg, routes);
    QualifyingRepeat(diff, out[0], 1);
    assert Repeat(out[0], 1) == [out[0]];
    if routes != [] {
      QualifyingRepeat(diff, routes[0], 1);
      assert Repeat(routes[0], 1) == [routes[0]] && routes == [routes[0]] + routes[1..];
      QualifyingAppend(diff, [routes[0]], routes[1..]);
      QualifyingAppend(diff, [out[0]], routes[1..]);
    }
  }

  lemma FirstEntryUpdates(before: Fields, after: Fields, name: string, cfg: Config, kind: string)
    requires cfg.Usable()
    ensures var routes, first := ExplicitRoutes(name, cfg, cfg.resources, kind, UpdateEvent),
                                 FirstEntry(cfg, |cfg.resources|, kind, UpdateEvent);
            && (first.Some? <==> routes != [])
            && (first.Some? ==>
                  && (Qualifies(DiffOf(before, after), routes[0]) <==> EntryQualifies(before, after, first.value))
                  && (YieldsDiff(routes[0]) <==> EntryYieldsDiff(first.value)))
  {
    var n := |cfg.resources|;
    assert cfg.resources[..n] == cfg.resources;
    FirstRoute(name, cfg, n, kind, UpdateEvent);
    var first := FirstEntry(cfg, n, kind, UpdateEvent);
    if first.Some? {
      EntryRoute(before, after, name, cfg, first.value);
    }
  }

  lemma RecommendedUpdates(before: Fields, after: Fields, name: string, cfg: Config, kind: string)
    requires cfg.Usable() && Listens(cfg, kind, UpdateEvent)
    ensures var routes := Overridden(name, cfg, ExplicitRoutes(name, cfg, cfg.resources, kind, UpdateEvent));
            && QualifyingCount(DiffOf(before, after), routes) == NaiveUpdates(before, after, cfg, kind)
            && RouteDiffs(DiffOf(before, after), routes) == NaiveDiffs(before, after, cfg, kind)
  {
    var n := |cfg.resources|;
    assert cfg.resources[..n] == cfg.resources;
    ExplicitUpdates(before, after, name, cfg, n, kind);
    FirstEntryUpdates(before, after, name, cfg, kind);
    OverriddenUpdates(DiffOf(before, after), name, cfg,
                      ExplicitRoutes(name, cfg, cfg.resources, kind, UpdateEvent));
  }

  /** The routes of a source qualify an update as often as its entries do, and yield the differences they ask for. */
  lemma GroupUpdatesAreNaive(before: Fields, after: Fields, name: string, cfg: Config, kind: string)
    requires cfg.Usable()
    ensures var routes := GroupRoutes(name, cfg, kind, UpdateEvent);
            && QualifyingCount(DiffOf(before, after), routes) == NaiveUpdates(before, after, cfg, kind)
            && RouteDiffs(DiffOf(before, after), routes) == NaiveDiffs(before, after, cfg, kind)
  {
    var n := |cfg.resources|;
    assert cfg.resources[..n] == cfg.resources;
    ExplicitUpdates(before, after, name, cfg, n, kind);
    if Listens(cfg, kind, UpdateEvent) {
      RecommendedUpdates(before, after, name, cfg, kind);
    }
  }

  // ---- through a table -------------------------------------------------------------------

  /**
   Through any table built from the configurations, an update qualifies at the routes of a source exactly as often as at
   its own resource entries, and the differences reported are those its entries ask for.
   */
  lemma TableUpdatesAreNaive(table: Table, cfgs: Configs, kind: string, name: string, before: Fields, after: Fields)
    requires Built(table, cfgs)
    ensures var own := RoutesOf(TableRoutes(table, kind, UpdateEvent), name);
            if name in cfgs then
              && QualifyingCount(DiffOf(before, after), own) == NaiveUpdates(before, after, cfgs[name].cfg, kind)
              && RouteDiffs(DiffOf(before, after), own) == NaiveDiffs(before, after, cfgs[name].cfg, kind)
            else own == []
  {
    assert BuiltFor(table, cfgs, kind);
    assert Groups(TableRoutes(table, kind, UpdateEvent), cfgs, cfgs.Keys, kind, UpdateEvent);
    if name in cfgs {
      GroupUpdatesAreNaive(before, after, name, cfgs[name].cfg, kind);
    }
  }

  lemma {:induction false} ExplicitWithoutSetting(name: string, cfg: Config, rs: seq<Resource>, kind: string,
                                                  e: EventType)
    requires (cfg.event.Some? || rs == []) && e != UpdateEvent
    ensures forall rt | rt in ExplicitRoutes(name, cfg, rs, kind, e) :: rt.updateSetting.None?
  {
    if rs != [] {
      ExplicitWithoutSetting(name, cfg, rs[..|rs| - 1], kind, e);
    }
  }

  lemma GroupWithoutSetting(name: string, cfg: Config, kind: string, e: EventType)
    requires cfg.Usable() && e != UpdateEvent
    ensures forall rt | rt in GroupRoutes(name, cfg, kind, e) :: rt.updateSetting.None?
  {
    ExplicitWithoutSetting(name, cfg, cfg.resources, kind, e);
  }

  /** Routes of other events look at no fields. */
  lemma OnlyUpdatesHaveSettings(table: Table, cfgs: Configs, kind: string, e: EventType, rt: Route)
    requires Built(table, cfgs) && e != UpdateEvent && rt in TableRoutes(table, kind, e)
    ensures rt.updateSetting.None?
  {
    assert BuiltFor(table, cfgs, kind);
    GroupsMember(TableRoutes(table, kind, e), cfgs, cfgs.Keys, kind, e, rt);
    RoutesOfMember(TableRoutes(table, kind, e), rt);
    GroupWithoutSetting(rt.source, cfgs[rt.source].cfg, kind, e);
  }

  lemma SomeSourceQualifies(table: Table, cfgs: Configs, kind: string, before: Fields, after: Fields)
    requires Built(table, cfgs)
    ensures (exists rt | rt in TableRoutes(table, kind, UpdateEvent) :: Qualifies(DiffOf(before, after), rt))
      <==> exists other | other in cfgs :: NaiveUpdates(before, after, cfgs[other].cfg, kind) > 0
  {
    var routes, diff := TableRoutes(table, kind, UpdateEvent), DiffOf(before, after);
    if rt :| rt in routes && Qualifies(diff, rt) {
      RoutesOfMember(routes, rt);
      QualifyingExists(diff, RoutesOf(routes, rt.source));
      TableUpdatesAreNaive(table, cfgs, kind, rt.source, before, after);
      assert rt.source in cfgs;
    }
    if other :| other in cfgs && NaiveUpdates(before, after, cfgs[other].cfg, kind) > 0 {
      TableUpdatesAreNaive(table, cfgs, kind, other, before, after);
      QualifyingExists(diff, RoutesOf(routes, other));
      var rt :| rt in RoutesOf(routes, other) && Qualifies(diff, rt);
      OwnRouteIsRoute(routes, other, rt);
    }
  }

  lemma {:induction false} OwnRouteIsRoute(routes: seq<Route>, name: string, rt: Route)
    requires rt in RoutesOf(routes, name)
    ensures rt in routes
  {
    if routes != [] {
      var init, last := routes[..|routes| - 1], routes[|routes| - 1];
      if rt in RoutesOf(init, name) {
        OwnRouteIsRoute(init, name, rt);
      }
      assert last in routes && forall x | x in init :: x in routes;
    }
  }

  lemma CandidateIff(re: Regexp, table: Table, cfgs: Configs, kind: string, ev: ObservedEvent, name: string)
    requires Built(table, cfgs)
    ensures name in AcceptedSources(re, TableRoutes(table, kind, UpdateEvent), ev) <==>
      name in cfgs && NaiveReports(re, cfgs[name].cfg, kind, UpdateEvent, ev) > 0
  {
    var candidates := AcceptedSources(re, TableRoutes(table, kind, UpdateEvent), ev);
    IndexedRoutingIsNaiveScan(re, table, cfgs, kind, UpdateEvent, ev, name);
    assert name in candidates <==> multiset(candidates)[name] > 0;
  }

  lemma ToldIff(diff: Diff, routes: seq<Route>, candidates: seq<string>, name: string)
    ensures name in EachRepeated(candidates, QualifyingCount(diff, routes)) <==>
      name in candidates && exists rt | rt in routes :: Qualifies(diff, rt)
  {
    if name in candidates {
      ToldIffSomeRouteQualifies(diff, routes, candidates, name);
    } else {
      RepeatedMultiplicity(candidates, QualifyingCount(diff, routes), name);
      assert multiset(candidates)[name] == 0;
    }
  }

  /**
   Through any table, a source is told of an update if and only if its own configuration reports the event and the
   update qualifies at an entry of some source, its own or not.
   */
  lemma UpdateIsToldIff(re: Regexp, table: Table, cfgs: Configs, kind: string, ev: ObservedEvent, name: string,
                        before: Fields, after: Fields)
    requires Built(table, cfgs)
    ensures var routes := TableRoutes(table, kind, UpdateEvent);
            name in EachRepeated(AcceptedSources(re, routes, ev), QualifyingCount(DiffOf(before, after), routes)) <==>
              && name in cfgs && NaiveReports(re, cfgs[name].cfg, kind, UpdateEvent, ev) > 0
              && exists other | other in cfgs :: NaiveUpdates(before, after, cfgs[other].cfg, kind) > 0
  {
    var routes := TableRoutes(table, kind, UpdateEvent);
    CandidateIff(re, table, cfgs, kind, ev, name);
    SomeSourceQualifies(table, cfgs, kind, before, after);
    ToldIff(DiffOf(before, after), routes, AcceptedSources(re, routes, ev), name);
  }
}
