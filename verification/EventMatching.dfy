/** Deciding which sources an observed Kubernetes event is reported to. */
module EventMatching {
  import opened Options
  import opened KubernetesConfig
  import opened Routing

  datatype ObservedEvent = ObservedEvent(kind: EventType, reason: string, messages: seq<string>, name: string,
                                         namespace: string, annotations: map<string, string>,
                                         labels: map<string, string>)

  // ---- one route -------------------------------------------------------------

  predicate Passes(re: Regexp, c: Option<RegexConstraints>, value: string) {
    c.Some? && c.value.AreConstraintsDefined() ==> Judge(re, c.value, value) == Allowed
  }

  predicate Fails(re: Regexp, c: Option<RegexConstraints>, value: string) {
    c.Some? && c.value.AreConstraintsDefined() && Judge(re, c.value, value) == Failed
  }

  predicate KeyValuesSatisfied(expected: Option<map<string, string>>, actual: map<string, string>) {
    expected.Some? ==> forall k | k in expected.value :: k in actual && actual[k] == expected.value[k]
  }

  /** No message counts as one empty message. */
  function MessagesToMatch(messages: seq<string>): seq<string> {
    if |messages| == 0 then [""] else messages
  }

  predicate AnyMessageAllowed(re: Regexp, c: RegexConstraints, messages: seq<string>) {
    exists i | 0 <= i < |messages| :: Judge(re, c, messages[i]) == Allowed
  }

  /** Some message fails before one is allowed. */
  predicate MessageFails(re: Regexp, c: RegexConstraints, messages: seq<string>) {
    exists i | 0 <= i < |messages| ::
      Judge(re, c, messages[i]) == Failed && forall j | 0 <= j < i :: Judge(re, c, messages[j]) != Allowed
  }

  predicate MessagesPass(re: Regexp, c: RegexConstraints, messages: seq<string>) {
    c.AreConstraintsDefined() ==> AnyMessageAllowed(re, c, MessagesToMatch(messages))
  }

  predicate Accepts(re: Regexp, rt: Route, ev: ObservedEvent) {
    && (rt.event.Some? ==>
          Passes(re, Some(rt.event.value.reason), ev.reason) && MessagesPass(re, rt.event.value.message, ev.messages))
    && Passes(re, Some(rt.resourceName), ev.name)
    && Passes(re, rt.namespaces, ev.namespace)
    && KeyValuesSatisfied(rt.annotations, ev.annotations)
    && KeyValuesSatisfied(rt.labels, ev.labels)
  }

  /** Matching the route reports an error. A broken message constraint does not keep the route from being accepted. */
  predicate Errs(re: Regexp, rt: Route, ev: ObservedEvent) {
    if rt.event.Some? && !Passes(re, Some(rt.event.value.reason), ev.reason) then
      Fails(re, Some(rt.event.value.reason), ev.reason)
    else
      || (rt.event.Some? && rt.event.value.message.AreConstraintsDefined()
          && MessageFails(re, rt.event.value.message, MessagesToMatch(ev.messages)))
      || ((rt.event.Some? ==> MessagesPass(re, rt.event.value.message, ev.messages))
          && (Fails(re, Some(rt.resourceName), ev.name)
              || (Passes(re, Some(rt.resourceName), ev.name) && Fails(re, rt.namespaces, ev.namespace))))
  }

  method KvsSatisfiedForMap(expected: Option<map<string, string>>, obj: map<string, string>) returns (ok: bool)
    ensures ok == KeyValuesSatisfied(expected, obj)
  {
    if expected.None? || |expected.value| == 0 {
      return true;
    }
    if |obj| == 0 {
      var k :| k in expected.value;
      assert k !in obj;
      return false;
    }
    var keys := expected.value.Keys;
    while keys != {}
      invariant keys <= expected.value.Keys
      invariant forall k | k in expected.value.Keys - keys :: k in obj && obj[k] == expected.value[k]
    {
      var k :| k in keys;
      if k !in obj || obj[k] != expected.value[k] {
        return false;
      }
      keys := keys - {k};
    }
    return true;
  }

  method MatchMessages(re: Regexp, c: RegexConstraints, messages: seq<string>) returns (anyMatches: bool, failed: bool)
    ensures anyMatches == AnyMessageAllowed(re, c, messages)
    ensures failed == MessageFails(re, c, messages)
  {
    anyMatches, failed := false, false;
    for i := 0 to |messages|
      invariant !anyMatches && forall j | 0 <= j < i :: Judge(re, c, messages[j]) != Allowed
      invariant failed <==> exists j | 0 <= j < i :: Judge(re, c, messages[j]) == Failed
    {
      var verdict := IsAllowed(re, c, messages[i]);
      match verdict
      case Failed => failed := true;
      case Allowed =>
        anyMatches := true;
        return;
      case Denied =>
    }
  }

  /** One turn of the matching loop. */
  method MatchRoute(re: Regexp, rt: Route, ev: ObservedEvent) returns (accepted: bool, failed: bool)
    ensures accepted == Accepts(re, rt, ev)
    ensures failed == Errs(re, rt, ev)
  {
    accepted, failed := false, false;
    if rt.event.Some? && rt.event.value.reason.AreConstraintsDefined() {
      var verdict := IsAllowed(re, rt.event.value.reason, ev.reason);
      if verdict != Allowed {
        return false, verdict == Failed;
      }
    }
    if rt.event.Some? && rt.event.value.message.AreConstraintsDefined() {
      var eventMsgs := ev.messages;
      if |eventMsgs| == 0 {
        eventMsgs := [""];
      }
      var anyMsgMatches, anyFailed := MatchMessages(re, rt.event.value.message, eventMsgs);
      failed := anyFailed;
      if !anyMsgMatches {
        return;
      }
    }
    if rt.resourceName.AreConstraintsDefined() {
      var verdict := IsAllowed(re, rt.resourceName, ev.name);
      if verdict != Allowed {
        return false, failed || verdict == Failed;
      }
    }
    if rt.namespaces.Some? && rt.namespaces.value.AreConstraintsDefined() {
      var verdict := IsAllowed(re, rt.namespaces.value, ev.namespace);
      if verdict != Allowed {
        return false, failed || verdict == Failed;
      }
    }
    accepted := KvsSatisfiedForMap(rt.annotations, ev.annotations);
    if accepted {
      accepted := KvsSatisfiedForMap(rt.labels, ev.labels);
    }
  }

  // ---- what matching a route means ---------------------------------------------

  predicate Unconstrained(c: RegexConstraints) {
    c.includes == [] && c.excludes == []
  }

  /** Values of which one has to be allowed, unless there are no constraints. */
  datatype Check = Check(constraints: RegexConstraints, values: seq<string>) {
    predicate Holds(re: Regexp) {
      Unconstrained(constraints) || exists i | 0 <= i < |values| :: Judge(re, constraints, values[i]) == Allowed
    }

    /** Some value fails before one is allowed. */
    predicate Reports(re: Regexp) {
      && !Unconstrained(constraints)
      && exists i | 0 <= i < |values| ::
           Judge(re, constraints, values[i]) == Failed
           && forall j | 0 <= j < i :: Judge(re, constraints, values[j]) != Allowed
    }
  }

  /** What a route looks at, in this order; an event without messages is matched with an empty one. */
  function Checks(rt: Route, ev: ObservedEvent): (checks: seq<Check>)
    ensures |checks| == 4
  {
    [Check(if rt.event.Some? then rt.event.value.reason else NO_CONSTRAINTS, [ev.reason]),
     Check(if rt.event.Some? then rt.event.value.message else NO_CONSTRAINTS,
           if ev.messages == [] then [""] else ev.messages),
     Check(rt.resourceName, [ev.name]),
     Check(if rt.namespaces.Some? then rt.namespaces.value else NO_CONSTRAINTS, [ev.namespace])]
  }

  predicate HasAll(expected: map<string, string>, actual: map<string, string>) {
    forall k | k in expected :: k in actual && actual[k] == expected[k]
  }

  /** A route accepts an event when all checks hold and the event has every required annotation and label. */
  lemma AcceptsMeaning(re: Regexp, rt: Route, ev: ObservedEvent)
    ensures Accepts(re, rt, ev) <==>
      && (forall i | 0 <= i < 4 :: Checks(rt, ev)[i].Holds(re))
      && (rt.annotations.Some? ==> HasAll(rt.annotations.value, ev.annotations))
      && (rt.labels.Some? ==> HasAll(rt.labels.value, ev.labels))
  {
    var checks := Checks(rt, ev);
    ChecksHold(re, rt, ev);
    assert (forall i | 0 <= i < 4 :: checks[i].Holds(re)) <==>
      checks[0].Holds(re) && checks[1].Holds(re) && checks[2].Holds(re) && checks[3].Holds(re);
  }

  lemma ChecksHold(re: Regexp, rt: Route, ev: ObservedEvent)
    ensures var checks := Checks(rt, ev);
            && (checks[0].Holds(re) <==> rt.event.None? || Passes(re, Some(rt.event.value.reason), ev.reason))
            && (checks[1].Holds(re) <==> rt.event.None? || MessagesPass(re, rt.event.value.message, ev.messages))
            && (checks[2].Holds(re) <==> Passes(re, Some(rt.resourceName), ev.name))
            && (checks[3].Holds(re) <==> Passes(re, rt.namespaces, ev.namespace))
  {
    var checks := Checks(rt, ev);
    assert forall i | i == 0 || i == 2 || i == 3 :: |checks[i].values| == 1;
    assert Judge(re, checks[0].constraints, checks[0].values[0]) == Judge(re, checks[0].constraints, ev.reason);
    assert Judge(re, checks[2].constraints, checks[2].values[0]) == Judge(re, checks[2].constraints, ev.name);
    assert Judge(re, checks[3].constraints, checks[3].values[0]) == Judge(re, checks[3].constraints, ev.namespace);
  }

  lemma ChecksReport(re: Regexp, rt: Route, ev: ObservedEvent)
    ensures var checks := Checks(rt, ev);
            && (checks[0].Reports(re) <==> rt.event.Some? && Fails(re, Some(rt.event.value.reason), ev.reason))
            && (checks[1].Reports(re) <==>
                  && rt.event.Some? && rt.event.value.message.AreConstraintsDefined()
                  && MessageFails(re, rt.event.value.message, MessagesToMatch(ev.messages)))
            && (checks[2].Reports(re) <==> Fails(re, Some(rt.resourceName), ev.name))
            && (checks[3].Reports(re) <==> Fails(re, rt.namespaces, ev.namespace))
  {
    var checks := Checks(rt, ev);
    assert forall i | i == 0 || i == 2 || i == 3 :: |checks[i].values| == 1;
    assert Judge(re, checks[0].constraints, checks[0].values[0]) == Judge(re, checks[0].constraints, ev.reason);
    assert Judge(re, checks[2].constraints, checks[2].values[0]) == Judge(re, checks[2].constraints, ev.name);
    assert Judge(re, checks[3].constraints, checks[3].values[0]) == Judge(re, checks[3].constraints, ev.namespace);
  }

  /** Matching a route reports an error when a check does, and all before it hold. */
  lemma ErrsMeaning(re: Regexp, rt: Route, ev: ObservedEvent)
    ensures Errs(re, rt, ev) <==>
      exists i | 0 <= i < 4 :: Checks(rt, ev)[i].Reports(re) && forall j | 0 <= j < i :: Checks(rt, ev)[j].Holds(re)
  {
    var checks := Checks(rt, ev);
    ChecksHold(re, rt, ev);
    ChecksReport(re, rt, ev);
    assert (exists i | 0 <= i < 4 :: checks[i].Reports(re) && forall j | 0 <= j < i :: checks[j].Holds(re)) <==>
      || checks[0].Reports(re)
      || (checks[1].Reports(re) && checks[0].Holds(re))
      || (checks[2].Reports(re) && checks[0].Holds(re) && checks[1].Holds(re))
      || (checks[3].Reports(re) && checks[0].Holds(re) && checks[1].Holds(re) && checks[2].Holds(re));
  }

  // ---- all routes ------------------------------------------------------------

  function AcceptedSources(re: Regexp, routes: seq<Route>, ev: ObservedEvent): seq<string> {
    if routes == [] then []
    else
      var last := routes[|routes| - 1];
      AcceptedSources(re, routes[..|routes| - 1], ev) + (if Accepts(re, last, ev) then [last.source] else [])
  }

  predicate AnyErrs(re: Regexp, routes: seq<Route>, ev: ObservedEvent) {
    exists i | 0 <= i < |routes| :: Errs(re, routes[i], ev)
  }

  /** Routes with a broken pattern are reported but do not affect the others. */
  method MatchEvent(re: Regexp, routes: seq<Route>, ev: ObservedEvent) returns (out: seq<string>, failed: bool)
    ensures out == AcceptedSources(re, routes, ev)
    ensures failed == AnyErrs(re, routes, ev)
  {
    out, failed := [], false;
    for i := 0 to |routes|
      invariant out == AcceptedSources(re, routes[..i], ev)
      invariant failed == exists j | 0 <= j < i :: Errs(re, routes[j], ev)
    {
      var accepted, routeFailed := MatchRoute(re, routes[i], ev);
      assert routes[..i + 1][..i] == routes[..i];
      failed := failed || routeFailed;
      if accepted {
        out := out + [routes[i].source];
      }
    }
    assert routes[..|routes|] == routes;
  }

  function AcceptedCount(re: Regexp, routes: seq<Route>, ev: ObservedEvent): nat {
    if routes == [] then 0
    else AcceptedCount(re, routes[..|routes| - 1], ev) + (if Accepts(re, routes[|routes| - 1], ev) then 1 else 0)
  }

  lemma AcceptedSourcesLast(re: Regexp, routes: seq<Route>, ev: ObservedEvent, name: string)
    requires routes != []
    ensures multiset(AcceptedSources(re, routes, ev))[name]
      == multiset(AcceptedSources(re, routes[..|routes| - 1], ev))[name]
      + (if Accepts(re, routes[|routes| - 1], ev) && routes[|routes| - 1].source == name then 1 else 0)
  {
    var before := AcceptedSources(re, routes[..|routes| - 1], ev);
    assert before + [] == before;
  }

  lemma AcceptedCountLast(re: Regexp, routes: seq<Route>, last: Route, ev: ObservedEvent)
    ensures AcceptedCount(re, routes + [last], ev)
      == AcceptedCount(re, routes, ev) + (if Accepts(re, last, ev) then 1 else 0)
  {
    assert (routes + [last])[..|routes|] == routes;
  }

  lemma {:induction false} SourceCountByGroup(re: Regexp, routes: seq<Route>, ev: ObservedEvent, name: string)
    ensures multiset(AcceptedSources(re, routes, ev))[name] == AcceptedCount(re, RoutesOf(routes, name), ev)
  {
    if routes != [] {
      var init, last := routes[..|routes| - 1], routes[|routes| - 1];
      SourceCountByGroup(re, init, ev, name);
      AcceptedSourcesLast(re, routes, ev, name);
      RoutesOfLast(routes, name);
      if last.source == name {
        AcceptedCountLast(re, RoutesOf(init, name), last, ev);
      }
    }
  }

  lemma RoutesOfLast(routes: seq<Route>, name: string)
    requires routes != []
    ensures RoutesOf(routes, name) == var own := RoutesOf(routes[..|routes| - 1], name);
                                      if routes[|routes| - 1].source == name then own + [routes[|routes| - 1]] else own
  {
    var own := RoutesOf(routes[..|routes| - 1], name);
    assert own + [] == own;
  }

  /** The sources are in the order of the routes. */
  lemma {:induction false} AcceptedInOrder(re: Regexp, a: seq<Route>, b: seq<Route>, ev: ObservedEvent)
    ensures AcceptedSources(re, a + b, ev) == AcceptedSources(re, a, ev) + AcceptedSources(re, b, ev)
  {
    if b == [] {
      assert a + b == a;
    } else {
      AcceptedInOrder(re, a, b[..|b| - 1], ev);
      assert (a + b)[..|a + b| - 1] == a + b[..|b| - 1];
    }
  }

  // ---- the naive scan --------------------------------------------------------

  predicate Fits(re: Regexp, c: RegexConstraints, value: string) {
    Unconstrained(c) || Judge(re, c, value) == Allowed
  }

  /** The resource entry of a configuration accepts the event, read directly from the configuration. */
  predicate EntryAccepts(re: Regexp, cfg: Config, r: Resource, ev: ObservedEvent)
    requires cfg.event.Some?
  {
    var ownEvent := !Unconstrained(r.event.reason) || !Unconstrained(r.event.message);
    var reason := if ownEvent then r.event.reason else cfg.event.value.reason;
    var message := if ownEvent then r.event.message else cfg.event.value.message;
    && Fits(re, reason, ev.reason)
    && Check(message, if ev.messages == [] then [""] else ev.messages).Holds(re)
    && Fits(re, r.name, ev.name)
    && NamespaceFits(re, cfg, r, ev)
    && (if r.annotations != map[] then HasAll(r.annotations, ev.annotations)
        else cfg.annotations.Some? ==> HasAll(cfg.annotations.value, ev.annotations))
    && (if r.labels != map[] then HasAll(r.labels, ev.labels)
        else cfg.labels.Some? ==> HasAll(cfg.labels.value, ev.labels))
  }

  /** The namespace filter of a resource entry, or that of the source when the entry has none. */
  predicate NamespaceFits(re: Regexp, cfg: Config, r: Resource, ev: ObservedEvent) {
    if !Unconstrained(r.namespaces) then Judge(re, r.namespaces, ev.namespace) == Allowed
    else SourceNamespaceFits(re, cfg, ev)
  }

  predicate SourceNamespaceFits(re: Regexp, cfg: Config, ev: ObservedEvent) {
    cfg.namespaces.Some? ==> Fits(re, cfg.namespaces.value, ev.namespace)
  }

  /** How often an entry lists an event type: its own types, or those of the source; "all" stands for four types. */
  function Listings(cfg: Config, r: Resource, e: EventType): nat
    requires cfg.event.Some?
  {
    var types := multiset(if r.event.types != [] then r.event.types else cfg.event.value.types);
    (if e == AllEvent then 0 else types[e])
    + (if e in {CreateEvent, UpdateEvent, DeleteEvent, ErrorEvent} then types[AllEvent] else 0)
  }

  lemma {:induction false} OccurrencesAppend<T>(a: seq<T>, b: seq<T>, x: T)
    ensures Occurrences(a + b, x) == Occurrences(a, x) + Occurrences(b, x)
  {
    if b == [] {
      assert a + b == a;
    } else {
      assert (a + b)[..|a + b| - 1] == a + b[..|b| - 1];
      OccurrencesAppend(a, b[..|b| - 1], x);
    }
  }

  lemma {:induction false} OccurrencesAre<T>(xs: seq<T>, x: T)
    ensures Occurrences(xs, x) == multiset(xs)[x]
  {
    if xs != [] {
      OccurrencesAre(xs[..|xs| - 1], x);
      assert xs == xs[..|xs| - 1] + [xs[|xs| - 1]];
    }
  }

  lemma ExpandedListings(t: EventType, e: EventType)
    ensures Occurrences(if t == AllEvent then EXPANSION_OF_ALL else [t], e) ==
      (if e != AllEvent && t == e then 1 else 0)
      + (if t == AllEvent && e in {CreateEvent, UpdateEvent, DeleteEvent, ErrorEvent} then 1 else 0)
  {
    OccurrencesAre(if t == AllEvent then EXPANSION_OF_ALL else [t], e);
  }

  lemma MultiplicityLast(types: seq<EventType>, e: EventType)
    requires types != []
    ensures multiset(types)[e]
      == multiset(types[..|types| - 1])[e] + if types[|types| - 1] == e then 1 else 0
  {
    assert types == types[..|types| - 1] + [types[|types| - 1]];
  }

  lemma {:induction false} FlattenedListings(types: seq<EventType>, e: EventType)
    ensures Occurrences(Flattened(types), e) ==
      (if e == AllEvent then 0 else multiset(types)[e])
      + (if e in {CreateEvent, UpdateEvent, DeleteEvent, ErrorEvent} then multiset(types)[AllEvent] else 0)
  {
    if types != [] {
      var init, last := types[..|types| - 1], types[|types| - 1];
      FlattenedListings(init, e);
      MultiplicityLast(types, e);
      MultiplicityLast(types, AllEvent);
      OccurrencesAppend(Flattened(init), if last == AllEvent then EXPANSION_OF_ALL else [last], e);
      ExpandedListings(last, e);
    }
  }

  /** The event types of an entry list each type as often as the configuration does. */
  lemma EventTypesMeaning(cfg: Config, r: Resource, e: EventType)
    requires cfg.event.Some?
    ensures Occurrences(EventTypes(cfg, r), e) == Listings(cfg, r, e)
    ensures e in EventTypes(cfg, r) <==> Listings(cfg, r, e) > 0
  {
    FlattenedListings(if r.event.types != [] then r.event.types else cfg.event.value.types, e);
    OccurrencesPositive(EventTypes(cfg, r), e);
  }

  /** How often the first `n` resource entries of a configuration report the event. */
  function NaiveCount(re: Regexp, cfg: Config, n: nat, kind: string, e: EventType, ev: ObservedEvent): nat
    requires cfg.Usable() && n <= |cfg.resources|
  {
    if n == 0 then 0
    else
      var r := cfg.resources[n - 1];
      NaiveCount(re, cfg, n - 1, kind, e, ev)
      + (if r.kind == kind && EntryAccepts(re, cfg, r, ev) then Listings(cfg, r, e) else 0)
  }

  lemma PassesFits(re: Regexp, c: RegexConstraints, value: string)
    ensures Passes(re, Some(c), value) <==> Fits(re, c, value)
  {
  }

  lemma MessagesFit(re: Regexp, c: RegexConstraints, messages: seq<string>)
    ensures MessagesPass(re, c, messages) <==> Check(c, if messages == [] then [""] else messages).Holds(re)
  {
    assert MessagesToMatch(messages) == if messages == [] then [""] else messages;
  }

  lemma ValuesFit(source: Option<map<string, string>>, resource: map<string, string>, actual: map<string, string>)
    ensures KeyValuesSatisfied(ResourceStringMap(source, resource), actual) <==>
      if resource != map[] then HasAll(resource, actual) else source.Some? ==> HasAll(source.value, actual)
  {
    assert |resource| == 0 <==> resource == map[];
  }

  lemma RouteMeansEntry(re: Regexp, name: string, cfg: Config, r: Resource, e: EventType, ev: ObservedEvent)
    requires cfg.event.Some?
    ensures Accepts(re, MakeRoute(name, cfg, r, e), ev) <==> EntryAccepts(re, cfg, r, ev)
  {
    var event := MakeRoute(name, cfg, r, e).event.value;
    PassesFits(re, event.reason, ev.reason);
    PassesFits(re, r.name, ev.name);
    MessagesFit(re, event.message, ev.messages);
    EntryNamespaceFits(re, name, cfg, r, e, ev);
    ValuesFit(cfg.annotations, r.annotations, ev.annotations);
    ValuesFit(cfg.labels, r.labels, ev.labels);
  }

  lemma EntryNamespaceFits(re: Regexp, name: string, cfg: Config, r: Resource, e: EventType, ev: ObservedEvent)
    requires cfg.event.Some?
    ensures Passes(re, ResourceNamespaces(cfg.namespaces, MakeRoute(name, cfg, r, e).namespaces), ev.namespace)
      <==> NamespaceFits(re, cfg, r, ev)
    ensures Passes(re, MakeRoute(name, cfg, r, e).namespaces, ev.namespace) <==> NamespaceFits(re, cfg, r, ev)
  {
  }

  lemma {:induction false} AcceptedAppend(re: Regexp, a: seq<Route>, b: seq<Route>, ev: ObservedEvent)
    ensures AcceptedCount(re, a + b, ev) == AcceptedCount(re, a, ev) + AcceptedCount(re, b, ev)
  {
    if b == [] {
      assert a + b == a;
    } else {
      AcceptedAppend(re, a, b[..|b| - 1], ev);
      assert (a + b)[..|a + b| - 1] == a + b[..|b| - 1];
    }
  }

  lemma {:induction false} AcceptedRepeat(re: Regexp, rt: Route, n: nat, ev: ObservedEvent)
    ensures AcceptedCount(re, Repeat(rt, n), ev) == if Accepts(re, rt, ev) then n else 0
  {
    if n > 0 {
      AcceptedRepeat(re, rt, n - 1, ev);
      assert Repeat(rt, n)[..n - 1] == Repeat(rt, n - 1);
    }
  }

  lemma {:induction false} ExplicitIsNaive(re: Regexp, name: string, cfg: Config, n: nat, kind: string, e: EventType,
                                           ev: ObservedEvent)
    requires cfg.Usable() && n <= |cfg.resources|
    ensures AcceptedCount(re, ExplicitRoutes(name, cfg, cfg.resources[..n], kind, e), ev)
      == NaiveCount(re, cfg, n, kind, e, ev)
  {
    if n > 0 {
      var r := cfg.resources[n - 1];
      assert cfg.resources[..n][..n - 1] == cfg.resources[..n - 1];
      ExplicitIsNaive(re, name, cfg, n - 1, kind, e, ev);
      var added := ResourceRoutes(name, cfg, r, EventTypes(cfg, r), kind, e);
      AcceptedAppend(re, ExplicitRoutes(name, cfg, cfg.resources[..n - 1], kind, e), added, ev);
      AcceptedRepeat(re, MakeRoute(name, cfg, r, e), Occurrences(EventTypes(cfg, r), e), ev);
      EventTypesMeaning(cfg, r, e);
      RouteMeansEntry(re, name, cfg, r, e, ev);
    }
  }

  predicate ConfiguresEvent(cfg: Config, r: Resource, kind: string, e: EventType)
    requires cfg.event.Some?
  {
    r.kind == kind && Listings(cfg, r, e) > 0
  }

  /** The first of the first `n` resource entries that configures the event. */
  function FirstEntry(cfg: Config, n: nat, kind: string, e: EventType): Option<Resource>
    requires cfg.Usable() && n <= |cfg.resources|
  {
    if n == 0 then None
    else
      var earlier := FirstEntry(cfg, n - 1, kind, e);
      if earlier.Some? then earlier
      else if ConfiguresEvent(cfg, cfg.resources[n - 1], kind, e) then Some(cfg.resources[n - 1]) else None
  }

  /** The source listens to the event for recommendations. */
  predicate Listens(cfg: Config, kind: string, e: EventType) {
    kind in cfg.recommended && cfg.recommended[kind] == e
  }

  /**
   How often a source reports the event, read directly from its configuration: once for every entry that accepts it.
   When the source listens to the event for recommendations, the first entry reports whatever its namespaces let
   through, and without an entry the source does.
   */
  function NaiveReports(re: Regexp, cfg: Config, kind: string, e: EventType, ev: ObservedEvent): int
    requires cfg.Usable()
  {
    var explicit := NaiveCount(re, cfg, |cfg.resources|, kind, e, ev);
    if !Listens(cfg, kind, e) then explicit
    else
      match FirstEntry(cfg, |cfg.resources|, kind, e)
      case None => explicit + (if SourceNamespaceFits(re, cfg, ev) then 1 else 0)
      case Some(first) =>
        explicit + (if NamespaceFits(re, cfg, first, ev) then 1 else 0)
        - (if EntryAccepts(re, cfg, first, ev) then 1 else 0)
  }

  lemma EntryRoutes(name: string, cfg: Config, r: Resource, kind: string, e: EventType)
    requires cfg.event.Some?
    ensures var routes := ResourceRoutes(name, cfg, r, EventTypes(cfg, r), kind, e);
            Begins(routes, name, cfg, if ConfiguresEvent(cfg, r, kind, e) then Some(r) else None, e)
  {
    EventTypesMeaning(cfg, r, e);
  }

  /** The routes begin with that of the entry; without an entry there are none. */
  predicate Begins(routes: seq<Route>, name: string, cfg: Config, first: Option<Resource>, e: EventType) {
    if first.None? then routes == []
    else cfg.event.Some? && routes != [] && routes[0] == MakeRoute(name, cfg, first.value, e)
  }

  lemma BeginsConcat(a: seq<Route>, b: seq<Route>, name: string, cfg: Config, first: Option<Resource>,
                     second: Option<Resource>, e: EventType)
    requires Begins(a, name, cfg, first, e) && Begins(b, name, cfg, second, e)
    ensures Begins(a + b, name, cfg, if first.Some? then first else second, e)
  {
  }

  lemma ExplicitNext(name: string, cfg: Config, n: nat, kind: string, e: EventType)
    requires cfg.Usable() && n < |cfg.resources|
    ensures ExplicitRoutes(name, cfg, cfg.resources[..n + 1], kind, e)
      == ExplicitRoutes(name, cfg, cfg.resources[..n], kind, e)
         + ResourceRoutes(name, cfg, cfg.resources[n], EventTypes(cfg, cfg.resources[n]), kind, e)
  {
    assert cfg.resources[..n + 1][..n] == cfg.resources[..n];
  }

  lemma {:induction false} FirstRoute(name: string, cfg: Config, n: nat, kind: string, e: EventType)
    requires cfg.Usable() && n <= |cfg.resources|
    ensures Begins(ExplicitRoutes(name, cfg, cfg.resources[..n], kind, e), name, cfg, FirstEntry(cfg, n, kind, e), e)
  {
    if n > 0 {
      var r := cfg.resources[n - 1];
      FirstRoute(name, cfg, n - 1, kind, e);
      ExplicitNext(name, cfg, n - 1, kind, e);
      EntryRoutes(name, cfg, r, kind, e);
      BeginsConcat(ExplicitRoutes(name, cfg, cfg.resources[..n - 1], kind, e),
                   ResourceRoutes(name, cfg, r, EventTypes(cfg, r), kind, e), name, cfg,
                   FirstEntry(cfg, n - 1, kind, e), if ConfiguresEvent(cfg, r, kind, e) then Some(r) else None, e);
    }
  }

  lemma RecommendationAccepts(re: Regexp, name: string, namespaces: Option<RegexConstraints>, ev: ObservedEvent)
    ensures Accepts(re, RecommendationRoute(name, namespaces), ev) <==> Passes(re, namespaces, ev.namespace)
  {
  }

  lemma OverriddenCount(re: Regexp, name: string, cfg: Config, routes: seq<Route>, ev: ObservedEvent)
    ensures var first := if routes == [] then None else routes[0].namespaces;
            var namespaces := if routes == [] then cfg.namespaces else ResourceNamespaces(cfg.namespaces, first);
            AcceptedCount(re, Overridden(name, cfg, routes), ev)
            == AcceptedCount(re, routes, ev) + (if Passes(re, namespaces, ev.namespace) then 1 else 0)
               - (if routes != [] && Accepts(re, routes[0], ev) then 1 else 0)
  {
    var namespaces := if routes == [] then cfg.namespaces else ResourceNamespaces(cfg.namespaces, routes[0].namespaces);
    var recommended := RecommendationRoute(name, namespaces);
    RecommendationAccepts(re, name, namespaces, ev);
    assert [recommended][..0] == [];
    if routes != [] {
      AcceptedAppend(re, [recommended], routes[1..], ev);
      AcceptedAppend(re, [routes[0]], routes[1..], ev);
      assert routes == [routes[0]] + routes[1..] && [routes[0]][..0] == [];
    }
  }

  lemma RecommendedIsNaive(re: Regexp, name: string, cfg: Config, kind: string, e: EventType, ev: ObservedEvent)
    requires cfg.Usable()
    ensures var routes, first := ExplicitRoutes(name, cfg, cfg.resources, kind, e),
                                 FirstEntry(cfg, |cfg.resources|, kind, e);
            AcceptedCount(re, Overridden(name, cfg, routes), ev) == AcceptedCount(re, routes, ev) +
              match first
              case None => if SourceNamespaceFits(re, cfg, ev) then 1 else 0
              case Some(r) =>
                (if NamespaceFits(re, cfg, r, ev) then 1 else 0) - (if EntryAccepts(re, cfg, r, ev) then 1 else 0)
  {
    var n := |cfg.resources|;
    assert cfg.resources[..n] == cfg.resources;
    var routes, first := ExplicitRoutes(name, cfg, cfg.resources, kind, e), FirstEntry(cfg, n, kind, e);
    FirstRoute(name, cfg, n, kind, e);
    OverriddenCount(re, name, cfg, routes, ev);
    if first.Some? {
      EntryNamespaceFits(re, name, cfg, first.value, e, ev);
      RouteMeansEntry(re, name, cfg, first.value, e, ev);
    }
  }

  /** The routes of a source accept an event as often as the naive scan counts, with and without a recommendation. */
  lemma GroupRoutesAreNaive(re: Regexp, name: string, cfg: Config, kind: string, e: EventType, ev: ObservedEvent)
    requires cfg.Usable()
    ensures AcceptedCount(re, GroupRoutes(name, cfg, kind, e), ev) == NaiveReports(re, cfg, kind, e, ev)
  {
    var n := |cfg.resources|;
    assert cfg.resources[..n] == cfg.resources;
    ExplicitIsNaive(re, name, cfg, n, kind, e, ev);
    RecommendedIsNaive(re, name, cfg, kind, e, ev);
  }

  /**
   Indexed routing refines the naive scan: through any table built from the configurations, in any order of iteration,
   every source is reported exactly as often as a scan of its own configuration says; names that are not configured
   are never reported.
   */
  lemma IndexedRoutingIsNaiveScan(re: Regexp, table: Table, cfgs: Configs, kind: string, e: EventType,
                                  ev: ObservedEvent, name: string)
    requires Built(table, cfgs)
    ensures multiset(AcceptedSources(re, TableRoutes(table, kind, e), ev))[name]
      == if name in cfgs then NaiveReports(re, cfgs[name].cfg, kind, e, ev) else 0
  {
    var routes := TableRoutes(table, kind, e);
    assert BuiltFor(table, cfgs, kind) && Groups(routes, cfgs, cfgs.Keys, kind, e);
    SourceCountByGroup(re, routes, ev, name);
    if name in cfgs {
      GroupRoutesAreNaive(re, name, cfgs[name].cfg, kind, e, ev);
    }
  }

  /** The table does not depend on the order in which maps are iterated. */
  lemma TableOrderIndependent(t1: Table, t2: Table, cfgs: Configs, kind: string, e: EventType)
    requires Built(t1, cfgs) && Built(t2, cfgs)
    ensures multiset(TableRoutes(t1, kind, e)) == multiset(TableRoutes(t2, kind, e))
    ensures forall name :: RoutesOf(TableRoutes(t1, kind, e), name) == RoutesOf(TableRoutes(t2, kind, e), name)
  {
    var a, b := TableRoutes(t1, kind, e), TableRoutes(t2, kind, e);
    assert BuiltFor(t1, cfgs, kind) && Groups(a, cfgs, cfgs.Keys, kind, e);
    assert BuiltFor(t2, cfgs, kind) && Groups(b, cfgs, cfgs.Keys, kind, e);
    forall r ensures multiset(a)[r] == multiset(b)[r] {
      RoutesOfMember(a, r);
      RoutesOfMember(b, r);
      assert RoutesOf(a, r.source) == RoutesOf(b, r.source);
    }
  }

  /**
   The sources among the routes are those that configure the event, and an entry exists exactly where a route does.
   */
  lemma RoutesCoverConfiguredSources(table: Table, cfgs: Configs, kind: string, e: EventType, name: string)
    requires Built(table, cfgs)
    ensures (exists r | r in TableRoutes(table, kind, e) :: r.source == name) <==>
      name in cfgs && Configured(cfgs[name].cfg, kind, e)
    ensures (exists entry: Entry | entry in Get(table, kind) :: entry.event == e) <==> TableRoutes(table, kind, e) != []
  {
    var routes := TableRoutes(table, kind, e);
    assert BuiltFor(table, cfgs, kind) && Groups(routes, cfgs, cfgs.Keys, kind, e);
    if name in cfgs {
      GroupIffConfigured(name, cfgs[name].cfg, kind, e);
      if Configured(cfgs[name].cfg, kind, e) {
        var r := GroupRoutes(name, cfgs[name].cfg, kind, e)[0];
        GroupFromSource(name, cfgs[name].cfg, kind, e);
        GroupsMember(routes, cfgs, cfgs.Keys, kind, e, r);
      }
    }
    if r :| r in routes && r.source == name {
      GroupsMember(routes, cfgs, cfgs.Keys, kind, e, r);
    }
    EntriesNonEmpty(Get(table, kind), e);
  }

  lemma {:induction false} EntriesNonEmpty(entries: seq<Entry>, e: EventType)
    requires forall entry: Entry | entry in entries :: entry.routes != []
    ensures (exists entry: Entry | entry in entries :: entry.event == e) <==> EntriesRoutes(entries, e) != []
  {
    if entries != [] {
      var init := entries[..|entries| - 1];
      EntriesNonEmpty(init, e);
      assert entries == init + [entries[|entries| - 1]];
    }
  }

  lemma {:induction false} ExplicitSame(name: string, cfg: Config, plain: Config, rs: seq<Resource>, kind: string,
                                        e: EventType)
    requires (cfg.event.Some? || rs == []) && plain == cfg.(recommended := map[])
    ensures ExplicitRoutes(name, cfg, rs, kind, e) == ExplicitRoutes(name, plain, rs, kind, e)
  {
    if rs != [] {
      ExplicitSame(name, cfg, plain, rs[..|rs| - 1], kind, e);
    }
  }

  /** `with` differs from `without` in its first route at most, which it has even when `without` has none. */
  predicate FirstReplaced(with: seq<Route>, without: seq<Route>) {
    |with| == (if without == [] then 1 else |without|) && forall i | 1 <= i < |with| :: with[i] == without[i]
  }

  lemma OverriddenReplacesFirst(name: string, cfg: Config, routes: seq<Route>)
    ensures FirstReplaced(Overridden(name, cfg, routes), routes)
  {
  }

  lemma GroupOverride(name: string, cfg: Config, plain: Config, kind: string, e: EventType)
    requires cfg.Usable() && plain == cfg.(recommended := map[])
    ensures Recommends(cfg, kind, e) ==>
      FirstReplaced(GroupRoutes(name, cfg, kind, e), GroupRoutes(name, plain, kind, e))
    ensures !Recommends(cfg, kind, e) ==> GroupRoutes(name, cfg, kind, e) == GroupRoutes(name, plain, kind, e)
  {
    ExplicitSame(name, cfg, plain, cfg.resources, kind, e);
    OverriddenReplacesFirst(name, cfg, ExplicitRoutes(name, cfg, cfg.resources, kind, e));
    assert !Recommends(plain, kind, e);
  }

  /**
   A recommendation rewrites at most the first route of its own source; the rest of the table is as without
   recommendations.
   */
  lemma OverrideIsLocal(table: Table, plain: Table, cfgs: Configs, unrecommended: Configs, kind: string, e: EventType,
                        name: string)
    requires Built(table, cfgs) && Built(plain, unrecommended)
    requires unrecommended.Keys == cfgs.Keys
    requires forall n | n in cfgs :: unrecommended[n].cfg == cfgs[n].cfg.(recommended := map[])
    ensures name in cfgs && Recommends(cfgs[name].cfg, kind, e) ==>
      FirstReplaced(RoutesOf(TableRoutes(table, kind, e), name), RoutesOf(TableRoutes(plain, kind, e), name))
    ensures !(name in cfgs && Recommends(cfgs[name].cfg, kind, e)) ==>
      RoutesOf(TableRoutes(table, kind, e), name) == RoutesOf(TableRoutes(plain, kind, e), name)
  {
    var a, b := TableRoutes(table, kind, e), TableRoutes(plain, kind, e);
    assert BuiltFor(table, cfgs, kind) && Groups(a, cfgs, cfgs.Keys, kind, e);
    assert BuiltFor(plain, unrecommended, kind) && Groups(b, unrecommended, unrecommended.Keys, kind, e);
    if name in cfgs {
      assert RoutesOf(a, name) == GroupRoutes(name, cfgs[name].cfg, kind, e);
      assert RoutesOf(b, name) == GroupRoutes(name, unrecommended[name].cfg, kind, e);
      GroupOverride(name, cfgs[name].cfg, unrecommended[name].cfg, kind, e);
    }
  }

  // ---- what an update changes --------------------------------------------------

  /** What a field, given as a JSONPath, prints as in a resource; `None` when it cannot be evaluated. */
  type Fields = string -> Option<string>

  /** A missing value and "false" count as the same, in this order. */
  predicate Changed(before: Fields, after: Fields, field: string) {
    && before(field).Some? && after(field).Some?
    && before(field) != after(field)
    && !(before(field) == Some("<none>") && after(field) == Some("false"))
  }

  function Described(field: string, before: string, after: string): string {
    field + ":\n\t-: " + before + "\n\t+: " + after + "\n"
  }

  function FieldDiff(before: Fields, after: Fields, field: string): (diff: string)
    ensures diff != "" <==> Changed(before, after, field)
  {
    match before(field)
    case None => ""
    case Some(x) =>
      match after(field)
      case None => ""
      case Some(y) => if x == y || (x == "<none>" && y == "false") then "" else Described(field, x, y)
  }

  function FieldsDiff(before: Fields, after: Fields, fields: seq<string>): string {
    if fields == [] then ""
    else FieldsDiff(before, after, fields[..|fields| - 1]) + FieldDiff(before, after, fields[|fields| - 1])
  }

  lemma FieldsDiffNext(before: Fields, after: Fields, fields: seq<string>, i: nat)
    requires i < |fields|
    ensures FieldsDiff(before, after, fields[..i + 1])
      == FieldsDiff(before, after, fields[..i]) + FieldDiff(before, after, fields[i])
  {
    assert fields[..i + 1][..i] == fields[..i];
  }

  method FindFieldDiff(before: Fields, after: Fields, field: string) returns (diff: string)
    ensures diff == FieldDiff(before, after, field)
  {
    var x, y := before(field), after(field);
    if x.None? || y.None? {
      return "";
    }
    if x == y || (x.value == "<none>" && y.value == "false") {
      return "";
    }
    return Described(field, x.value, y.value);
  }

  /** Describes how an update changed the fields of interest; a field that cannot be evaluated is left out. */
  method FindDiff(before: Fields, after: Fields, fields: seq<string>) returns (diff: string)
    ensures diff == FieldsDiff(before, after, fields)
  {
    diff := "";
    for i := 0 to |fields|
      invariant diff == FieldsDiff(before, after, fields[..i])
    {
      FieldsDiffNext(before, after, fields, i);
      var fieldDiff := FindFieldDiff(before, after, fields[i]);
      diff := diff + fieldDiff;
    }
    assert fields[..|fields|] == fields;
  }

  /** A changed field is described by its old and its new value. */
  lemma FieldsDiffText(before: Fields, after: Fields, field: string)
    ensures FieldsDiff(before, after, [field]) ==
      if Changed(before, after, field)
      then field + ":\n\t-: " + before(field).value + "\n\t+: " + after(field).value + "\n" else ""
  {
    assert [field][..0] == [];
    assert FieldsDiff(before, after, [field]) == "" + FieldDiff(before, after, field);
  }

  lemma Associative(a: string, b: string, c: string)
    ensures (a + b) + c == a + (b + c)
  {
  }

  lemma FieldsDiffLast(before: Fields, after: Fields, fields: seq<string>, more: seq<string>)
    requires more != []
    ensures FieldsDiff(before, after, fields + more)
      == FieldsDiff(before, after, fields + more[..|more| - 1]) + FieldDiff(before, after, more[|more| - 1])
  {
    assert (fields + more)[..|fields + more| - 1] == fields + more[..|more| - 1];
  }

  /** The fields are described in order. */
  lemma {:induction false} FieldsDiffConcat(before: Fields, after: Fields, fields: seq<string>, more: seq<string>)
    ensures FieldsDiff(before, after, fields + more)
      == FieldsDiff(before, after, fields) + FieldsDiff(before, after, more)
  {
    if more == [] {
      assert fields + more == fields;
    } else {
      var init, last := more[..|more| - 1], FieldDiff(before, after, more[|more| - 1]);
      FieldsDiffConcat(before, after, fields, init);
      FieldsDiffLast(before, after, fields, more);
      Associative(FieldsDiff(before, after, fields), FieldsDiff(before, after, init), last);
    }
  }

  lemma {:induction false} FieldsDiffMeaning(before: Fields, after: Fields, fields: seq<string>)
    ensures FieldsDiff(before, after, fields) != "" <==> exists f | f in fields :: Changed(before, after, f)
  {
    if fields != [] {
      var last := fields[|fields| - 1];
      FieldsDiffMeaning(before, after, fields[..|fields| - 1]);
      assert forall f :: f in fields <==> f in fields[..|fields| - 1] || f == last;
    }
  }

  // ---- qualification of updates ----------------------------------------------

  type Diff = UpdateSetting -> string

  function DiffOf(before: Fields, after: Fields): Diff {
    (setting: UpdateSetting) => FieldsDiff(before, after, setting.fields)
  }

  predicate Actionable(rt: Route) {
    rt.updateSetting.Some? && |rt.updateSetting.value.fields| > 0
  }

  predicate Qualifies(diff: Diff, rt: Route) {
    Actionable(rt) ==> |diff(rt.updateSetting.value)| > 0
  }

  predicate YieldsDiff(rt: Route) {
    Actionable(rt) && rt.updateSetting.value.includeDiff
  }

  function QualifyingCount(diff: Diff, routes: seq<Route>): nat {
    if routes == [] then 0
    else QualifyingCount(diff, routes[..|routes| - 1]) + (if Qualifies(diff, routes[|routes| - 1]) then 1 else 0)
  }

  function RouteDiffs(diff: Diff, routes: seq<Route>): seq<string> {
    if routes == [] then []
    else
      var last := routes[|routes| - 1];
      RouteDiffs(diff, routes[..|routes| - 1]) + (if YieldsDiff(last) then [diff(last.updateSetting.value)] else [])
  }

  function Tiled<T>(block: seq<T>, n: nat): seq<T> {
    if n == 0 then [] else Tiled(block, n - 1) + block
  }

  function EachRepeated<T>(xs: seq<T>, n: nat): seq<T> {
    if xs == [] then [] else EachRepeated(xs[..|xs| - 1], n) + Repeat(xs[|xs| - 1], n)
  }

  lemma QualifyingNext(diff: Diff, routes: seq<Route>, i: nat)
    requires i < |routes|
    ensures QualifyingCount(diff, routes[..i + 1])
      == QualifyingCount(diff, routes[..i]) + (if Qualifies(diff, routes[i]) then 1 else 0)
    ensures RouteDiffs(diff, routes[..i + 1]) == RouteDiffs(diff, routes[..i])
      + (if YieldsDiff(routes[i]) then [diff(routes[i].updateSetting.value)] else [])
  {
    assert routes[..i + 1][..i] == routes[..i];
  }

  method QualifyCandidate(before: Fields, after: Fields, routes: seq<Route>, source: string)
    returns (result: seq<string>, diffs: seq<string>)
    ensures result == Repeat(source, QualifyingCount(DiffOf(before, after), routes))
    ensures diffs == RouteDiffs(DiffOf(before, after), routes)
  {
    result, diffs := [], [];
    ghost var diff := DiffOf(before, after);
    for i := 0 to |routes|
      invariant result == Repeat(source, QualifyingCount(diff, routes[..i]))
      invariant diffs == RouteDiffs(diff, routes[..i])
    {
      var rt := routes[i];
      QualifyingNext(diff, routes, i);
      if !Actionable(rt) {
        result := result + [source];
        continue;
      }
      var change := FindDiff(before, after, rt.updateSetting.value.fields);
      assert change == diff(rt.updateSetting.value);
      if rt.updateSetting.value.includeDiff {
        diffs := diffs + [change];
      }
      if |change| > 0 {
        result := result + [source];
      }
    }
    assert routes[..|routes|] == routes;
  }

  /** Every candidate is checked against every route, whichever source the route belongs to. */
  method QualifyEventForUpdate(before: Fields, after: Fields, routes: seq<Route>, candidates: seq<string>)
    returns (result: seq<string>, diffs: seq<string>)
    ensures result == EachRepeated(candidates, QualifyingCount(DiffOf(before, after), routes))
    ensures diffs == Tiled(RouteDiffs(DiffOf(before, after), routes), |candidates|)
  {
    result, diffs := [], [];
    for i := 0 to |candidates|
      invariant result == EachRepeated(candidates[..i], QualifyingCount(DiffOf(before, after), routes))
      invariant diffs == Tiled(RouteDiffs(DiffOf(before, after), routes), i)
    {
      var r, d := QualifyCandidate(before, after, routes, candidates[i]);
      assert candidates[..i + 1][..i] == candidates[..i];
      result, diffs := result + r, diffs + d;
    }
    assert candidates[..|candidates|] == candidates;
  }

  /** A pattern that does not compile in any route silences every source of the event. */
  method QualifyEvent(re: Regexp, before: Fields, after: Fields, ev: ObservedEvent, routes: seq<Route>)
    returns (sources: seq<string>, diffs: seq<string>, failed: bool)
    ensures failed == AnyErrs(re, routes, ev)
    ensures failed ==> sources == [] && diffs == []
    ensures !failed && ev.kind != UpdateEvent ==> sources == AcceptedSources(re, routes, ev) && diffs == []
    ensures !failed && ev.kind == UpdateEvent ==>
      && sources == EachRepeated(AcceptedSources(re, routes, ev), QualifyingCount(DiffOf(before, after), routes))
      && diffs == Tiled(RouteDiffs(DiffOf(before, after), routes), |AcceptedSources(re, routes, ev)|)
  {
    var candidates, matchFailed := MatchEvent(re, routes, ev);
    if matchFailed {
      return [], [], true;
    }
    if ev.kind == UpdateEvent {
      sources, diffs := QualifyEventForUpdate(before, after, routes, candidates);
      return sources, diffs, false;
    }
    return candidates, [], false;
  }

  lemma {:induction false} RepeatedMultiplicity(xs: seq<string>, n: nat, x: string)
    ensures multiset(EachRepeated(xs, n))[x] == multiset(xs)[x] * n
  {
    if xs != [] {
      var init, last := xs[..|xs| - 1], xs[|xs| - 1];
      RepeatedMultiplicity(init, n, x);
      RepeatCount(last, n, x);
      CountOfLast(xs, x);
      OneMoreTimes(multiset(init)[x], n);
    }
  }

  lemma TurnBounds(turns: nat, length: nat, i: nat, j: nat)
    requires i < turns && j < length
    ensures 0 <= i * length && i * length + j < turns * length
    ensures i + 1 < turns ==> i * length + j < (turns - 1) * length
    ensures (turns - 1) * length + length == turns * length
  {
    assert (i + 1) * length <= turns * length;
    assert i + 1 < turns ==> (i + 1) * length <= (turns - 1) * length;
  }

  lemma {:induction false} RepeatedLength<T>(xs: seq<T>, n: nat)
    ensures |EachRepeated(xs, n)| == |xs| * n
  {
    if xs != [] {
      RepeatedLength(xs[..|xs| - 1], n);
      assert |xs| * n == (|xs| - 1) * n + n;
    }
  }

  /** The repetitions of a candidate stand together, in the order of the candidates. */
  lemma {:induction false} RepeatedInOrder<T>(xs: seq<T>, n: nat, i: nat, j: nat)
    requires i < |xs| && j < n
    ensures |EachRepeated(xs, n)| == |xs| * n && 0 <= i * n + j < |xs| * n && EachRepeated(xs, n)[i * n + j] == xs[i]
  {
    var init := xs[..|xs| - 1];
    RepeatedLength(xs, n);
    RepeatedLength(init, n);
    TurnBounds(|xs|, n, i, j);
    if i < |init| {
      RepeatedInOrder(init, n, i, j);
    }
  }

  /** The diffs of all routes come once for every candidate, each time in the order of the routes. */
  lemma {:induction false} TiledInOrder<T>(block: seq<T>, n: nat, i: nat, j: nat)
    requires i < n && j < |block|
    ensures |Tiled(block, n)| == n * |block| && 0 <= i * |block| + j < n * |block|
    ensures Tiled(block, n)[i * |block| + j] == block[j]
  {
    TiledLength(block, n);
    TiledLength(block, n - 1);
    TurnBounds(n, |block|, i, j);
    if i < n - 1 {
      TiledInOrder(block, n - 1, i, j);
    }
  }

  lemma CountOfLast(xs: seq<string>, x: string)
    requires xs != []
    ensures multiset(xs)[x] == multiset(xs[..|xs| - 1])[x] + if xs[|xs| - 1] == x then 1 else 0
  {
    assert xs == xs[..|xs| - 1] + [xs[|xs| - 1]];
  }

  lemma OneMoreTimes(k: nat, n: nat)
    ensures (k + 1) * n == k * n + n
  {
  }

  lemma {:induction false} RepeatCount(y: string, n: nat, x: string)
    ensures multiset(Repeat(y, n))[x] == if x == y then n else 0
  {
    if n > 0 {
      RepeatCount(y, n - 1, x);
      assert Repeat(y, n) == Repeat(y, n - 1) + [y];
    }
  }

  lemma {:induction false} TiledLength<T>(block: seq<T>, n: nat)
    ensures |Tiled(block, n)| == |block| * n
  {
    if n > 0 {
      TiledLength(block, n - 1);
      assert |block| * n == |block| * (n - 1) + |block|;
    }
  }

  lemma {:induction false} DiffCount(diff: Diff, routes: seq<Route>)
    ensures |RouteDiffs(diff, routes)| + SilentCount(routes) == |routes|
  {
    if routes != [] {
      DiffCount(diff, routes[..|routes| - 1]);
    }
  }

  function SilentCount(routes: seq<Route>): nat {
    if routes == [] then 0
      else SilentCount(routes[..|routes| - 1]) + (if YieldsDiff(routes[|routes| - 1]) then 0 else 1)
  }

  lemma {:induction false} QualifyingExists(diff: Diff, routes: seq<Route>)
    ensures QualifyingCount(diff, routes) > 0 <==> exists rt | rt in routes :: Qualifies(diff, rt)
  {
    if routes != [] {
      QualifyingExists(diff, routes[..|routes| - 1]);
      assert routes == routes[..|routes| - 1] + [routes[|routes| - 1]];
    }
  }

  /** The counting law of update qualification. */
  lemma UpdateCountingLaw(diff: Diff, routes: seq<Route>, candidates: seq<string>, name: string)
    ensures multiset(EachRepeated(candidates, QualifyingCount(diff, routes)))[name]
      == multiset(candidates)[name] * QualifyingCount(diff, routes)
    ensures |Tiled(RouteDiffs(diff, routes), |candidates|)| == |RouteDiffs(diff, routes)| * |candidates|
    ensures |RouteDiffs(diff, routes)| + SilentCount(routes) == |routes|
  {
    RepeatedMultiplicity(candidates, QualifyingCount(diff, routes), name);
    TiledLength(RouteDiffs(diff, routes), |candidates|);
    DiffCount(diff, routes);
  }

  predicate OwnRouteQualifies(diff: Diff, routes: seq<Route>, name: string) {
    exists rt | rt in routes :: rt.source == name && Qualifies(diff, rt)
  }

  /** The JSONPath a field of the settings stands for, if it is one; fields with the same path are read alike. */
  type Paths = string -> Option<string>

  /** What every path prints as in a resource. */
  type Object = string -> string

  function Reading(paths: Paths, resource: Object): Fields {
    field => match paths(field) case None => None case Some(path) => Some(resource(path))
  }

  /** How an update from one resource to another changes the fields of a setting. */
  function UpdateDiff(paths: Paths, before: Object, after: Object): Diff {
    DiffOf(Reading(paths, before), Reading(paths, after))
  }

  predicate WatchesPath(paths: Paths, rt: Route, path: string) {
    Actionable(rt) && exists f | f in rt.updateSetting.value.fields :: paths(f) == Some(path)
  }

  predicate WatchedByOwn(paths: Paths, routes: seq<Route>, name: string, path: string) {
    exists rt | rt in routes && rt.source == name :: WatchesPath(paths, rt, path)
  }

  /** Every path the route watches is watched by a route of the source. */
  predicate OnlyOwnPaths(paths: Paths, routes: seq<Route>, name: string, rt: Route)
    requires Actionable(rt)
  {
    forall f | f in rt.updateSetting.value.fields && paths(f).Some? :: WatchedByOwn(paths, routes, name, paths(f).value)
  }

  /**
   One of the source's own routes qualifies whatever changes, or every route of the event watches fields, and none that
   the source's own routes do not watch.
   */
  predicate OwnRoutesDecide(paths: Paths, routes: seq<Route>, name: string) {
    || (exists rt | rt in routes :: rt.source == name && !Actionable(rt))
    || (forall rt | rt in routes :: Actionable(rt) && OnlyOwnPaths(paths, routes, name, rt))
  }

  /** A candidate ought to be told of an update exactly when one of its own routes qualifies. */
  predicate ToldByOwnRoutes(diff: Diff, routes: seq<Route>, candidates: seq<string>, name: string) {
    name in EachRepeated(candidates, QualifyingCount(diff, routes)) <==> OwnRouteQualifies(diff, routes, name)
  }

  lemma ToldIffSomeRouteQualifies(diff: Diff, routes: seq<Route>, candidates: seq<string>, name: string)
    requires name in candidates
    ensures name in EachRepeated(candidates, QualifyingCount(diff, routes)) <==>
      exists rt | rt in routes :: Qualifies(diff, rt)
  {
    RepeatedMultiplicity(candidates, QualifyingCount(diff, routes), name);
    QualifyingExists(diff, routes);
    assert multiset(candidates)[name] > 0;
    if QualifyingCount(diff, routes) > 0 {
      assert multiset(candidates)[name] * QualifyingCount(diff, routes) > 0;
    }
  }

  lemma QualifiesIff(before: Fields, after: Fields, rt: Route)
    ensures Qualifies(DiffOf(before, after), rt) <==>
      !Actionable(rt) || exists f | f in rt.updateSetting.value.fields :: Changed(before, after, f)
  {
    if Actionable(rt) {
      FieldsDiffMeaning(before, after, rt.updateSetting.value.fields);
    }
  }

  lemma OwnRoutesSuffice(paths: Paths, before: Object, after: Object, routes: seq<Route>, candidates: seq<string>,
                         name: string)
    requires name in candidates && OwnRoutesDecide(paths, routes, name)
    ensures ToldByOwnRoutes(UpdateDiff(paths, before, after), routes, candidates, name)
  {
    var x, y := Reading(paths, before), Reading(paths, after);
    ToldIffSomeRouteQualifies(DiffOf(x, y), routes, candidates, name);
    if rt :| rt in routes && rt.source == name && !Actionable(rt) {
      assert Qualifies(DiffOf(x, y), rt);
    } else if rt :| rt in routes && Qualifies(DiffOf(x, y), rt) {
      QualifiesIff(x, y, rt);
      var f :| f in rt.updateSetting.value.fields && Changed(x, y, f);
      var own :| own in routes && own.source == name && WatchesPath(paths, own, paths(f).value);
      var g :| g in own.updateSetting.value.fields && paths(g) == paths(f);
      assert Changed(x, y, g);
      QualifiesIff(x, y, own);
    }
  }

  lemma OwnRoutesMiss(before: Fields, after: Fields, routes: seq<Route>, name: string, rt: Route)
    requires forall own | own in routes && own.source == name ::
      Actionable(own) && forall f | f in own.updateSetting.value.fields :: !Changed(before, after, f)
    requires rt in routes
    requires !Actionable(rt) || exists f | f in rt.updateSetting.value.fields :: Changed(before, after, f)
    ensures !OwnRouteQualifies(DiffOf(before, after), routes, name)
    ensures exists rt | rt in routes :: Qualifies(DiffOf(before, after), rt)
  {
    QualifiesIff(before, after, rt);
    forall own | own in routes && own.source == name ensures !Qualifies(DiffOf(before, after), own) {
      QualifiesIff(before, after, own);
    }
  }

  /** An update of a path that only another source's routes watch, or of none when those watch no field. */
  lemma OtherRouteDecides(paths: Paths, routes: seq<Route>, candidates: seq<string>, name: string)
    returns (before: Object, after: Object)
    requires name in candidates && !OwnRoutesDecide(paths, routes, name)
    ensures !ToldByOwnRoutes(UpdateDiff(paths, before, after), routes, candidates, name)
  {
    var rt :| rt in routes && !(Actionable(rt) && OnlyOwnPaths(paths, routes, name, rt));
    before := path => "old";
    after := before;
    if Actionable(rt) {
      var f :| f in rt.updateSetting.value.fields && paths(f).Some?
        && !WatchedByOwn(paths, routes, name, paths(f).value);
      after := path => if path == paths(f).value then "new" else "old";
      assert Changed(Reading(paths, before), Reading(paths, after), f);
    }
    OwnRoutesMiss(Reading(paths, before), Reading(paths, after), routes, name, rt);
    ToldIffSomeRouteQualifies(UpdateDiff(paths, before, after), routes, candidates, name);
  }

  /**
   Whatever an update changes, a candidate is told of it because of its own routes if and only if it has a route that
   qualifies without looking at the change, or all routes of the event look at fields, each of which the candidate's own
   routes look at too. Whether the differences are included in the message does not matter.
   */
  lemma UpdateFollowsOwnRoutesIff(paths: Paths, routes: seq<Route>, candidates: seq<string>, name: string)
    requires name in candidates
    ensures (forall before: Object, after: Object ::
               ToldByOwnRoutes(UpdateDiff(paths, before, after), routes, candidates, name))
      <==> OwnRoutesDecide(paths, routes, name)
  {
    if OwnRoutesDecide(paths, routes, name) {
      forall before: Object, after: Object
        ensures ToldByOwnRoutes(UpdateDiff(paths, before, after), routes, candidates, name)
      {
        OwnRoutesSuffice(paths, before, after, routes, candidates, name);
      }
    } else {
      var before, after := OtherRouteDecides(paths, routes, candidates, name);
    }
  }

  // ---- two sources that watch different fields -----------------------------------------

  const DEPLOYMENTS := "apps/v1/deployments"

  /** A source told of updates of one field of deployments. */
  function Watching(name: string, field: string): SourceConfig {
    var nothing := KubernetesEvent(NO_CONSTRAINTS, NO_CONSTRAINTS, []);
    var updates := KubernetesEvent(NO_CONSTRAINTS, NO_CONSTRAINTS, [UpdateEvent]);
    var resource := Resource(DEPLOYMENTS, NO_CONSTRAINTS, NO_CONSTRAINTS, map[], map[], updates,
                             UpdateSetting([field], true));
    SourceConfig(name, 0, Config(map[], Some(nothing), [resource], None, None, None), false, "", "kubeconfig")
  }

  function WatchingTwo(): Configs {
    map["image" := Watching("image", "spec.image"), "replicas" := Watching("replicas", "spec.replicas")]
  }

  lemma WatchedRoute(name: string, field: string) returns (rt: Route)
    ensures GroupRoutes(name, Watching(name, field).cfg, DEPLOYMENTS, UpdateEvent) == [rt]
    ensures rt.source == name && rt.updateSetting == Some(UpdateSetting([field], true))
    ensures forall re, ev :: Accepts(re, rt, ev)
  {
    var cfg := Watching(name, field).cfg;
    var r := cfg.resources[0];
    assert cfg.resources == [r] && cfg.resources[..0] == [];
    assert r.event.types[..0] == [] && EventTypes(cfg, r) == [UpdateEvent];
    assert [UpdateEvent][..0] == [] && Occurrences([UpdateEvent], UpdateEvent) == 1;
    rt := MakeRoute(name, cfg, r, UpdateEvent);
    assert Repeat(rt, 1) == [rt];
    assert ExplicitRoutes(name, cfg, [], DEPLOYMENTS, UpdateEvent) == [];
  }

  lemma WatchedRouteInTable(table: Table, name: string) returns (rt: Route)
    requires Built(table, WatchingTwo()) && name in WatchingTwo()
    ensures RoutesOf(TableRoutes(table, DEPLOYMENTS, UpdateEvent), name) == [rt]
      && rt in TableRoutes(table, DEPLOYMENTS, UpdateEvent)
    ensures rt.source == name
      && rt.updateSetting == Some(UpdateSetting([if name == "image" then "spec.image" else "spec.replicas"], true))
    ensures forall re, ev :: Accepts(re, rt, ev)
  {
    var routes := TableRoutes(table, DEPLOYMENTS, UpdateEvent);
    assert BuiltFor(table, WatchingTwo(), DEPLOYMENTS)
      && Groups(routes, WatchingTwo(), WatchingTwo().Keys, DEPLOYMENTS, UpdateEvent);
    rt := WatchedRoute(name, if name == "image" then "spec.image" else "spec.replicas");
    assert rt in [rt];
    RoutesOfMember(routes, rt);
  }

  lemma WatchersAreCandidates(re: Regexp, table: Table, ev: ObservedEvent, name: string)
    requires Built(table, WatchingTwo()) && name in WatchingTwo()
    ensures name in AcceptedSources(re, TableRoutes(table, DEPLOYMENTS, UpdateEvent), ev)
  {
    var routes := TableRoutes(table, DEPLOYMENTS, UpdateEvent);
    var rt := WatchedRouteInTable(table, name);
    SourceCountByGroup(re, routes, ev, name);
    assert [rt][..0] == [] && AcceptedCount(re, [rt], ev) == 1;
  }

  lemma OnlyRouteDecides(diff: Diff, routes: seq<Route>, name: string, rt: Route)
    requires RoutesOf(routes, name) == [rt]
    ensures OwnRouteQualifies(diff, routes, name) ==> Qualifies(diff, rt)
  {
    if own :| own in routes && own.source == name && Qualifies(diff, own) {
      RoutesOfMember(routes, own);
      assert own in [rt];
    }
  }

  /**
   One source watches the image of deployments and another their replicas. Through every table built from them a change
   of the replicas alone is reported to both.
   */
  lemma UpdateReachesSourceWithoutChange(re: Regexp, before: Fields, after: Fields, table: Table, ev: ObservedEvent)
    requires Built(table, WatchingTwo())
    requires before("spec.image") == after("spec.image")
      && before("spec.replicas") == Some("2") && after("spec.replicas") == Some("3")
    ensures var routes, diff := TableRoutes(table, DEPLOYMENTS, UpdateEvent), DiffOf(before, after);
            && "image" in EachRepeated(AcceptedSources(re, routes, ev), QualifyingCount(diff, routes))
            && !OwnRouteQualifies(diff, routes, "image")
  {
    var routes, diff := TableRoutes(table, DEPLOYMENTS, UpdateEvent), DiffOf(before, after);
    var image := WatchedRouteInTable(table, "image");
    var replicas := WatchedRouteInTable(table, "replicas");
    QualifiesIff(before, after, image);
    QualifiesIff(before, after, replicas);
    assert "spec.replicas" in replicas.updateSetting.value.fields && Changed(before, after, "spec.replicas");
    WatchersAreCandidates(re, table, ev, "image");
    ToldIffSomeRouteQualifies(diff, routes, AcceptedSources(re, routes, ev), "image");
    OnlyRouteDecides(diff, routes, "image", image);
  }
}
