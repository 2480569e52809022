/**
 The plugin supervision protocol: health watchers, the two supervisor loops
 (one for source plugins, one for executor plugins) and the restart counters the
 loops share.

 The protocol is a labelled transition system. One event is one action that other
 goroutines can interleave with: a lock acquisition, a channel rendezvous, or the
 creation of a plugin process. In particular reading the restart counter and
 incrementing it are two events.
 */
module Supervision {
  import opened HealthStatistics
  import opened Sums

  datatype Kind = Source | Executor

  /** Where a supervisor loop stands while it handles one failed plugin. */
  datatype Phase =
    | Idle
    | Received(key: Key)                  // taken from the supervisor channel
    | Deleted(key: Key)                   // removed from the enabled plugins
    | CountRead(key: Key, restarts: nat)  // restart counter read, not yet incremented
    | Granted(key: Key)                   // counter incremented, restart allowed
    | Created(key: Key)                   // new client and its watcher exist
    | Inserted(key: Key)                  // client is enabled, scheduler not yet told

  /** One supervisor loop with the watchers that report to it and its enabled plugins. */
  datatype Side = Side(phase: Phase, watching: multiset<Key>, blocked: multiset<Key>, enabled: set<Key>)

  /** What happened to restart requests so far, per kind and key. */
  datatype History = History(granted: multiset<(Kind, Key)>, refused: multiset<(Kind, Key)>,
                             failed: multiset<(Kind, Key)>)

  datatype State = State(source: Side, executor: Side, counts: map<Key, nat>, exited: bool,
                         notified: seq<Key>, history: History)
  {
    function Of(kind: Kind): Side {
      match kind case Source => source case Executor => executor
    }

    function With(kind: Kind, side: Side): State {
      match kind case Source => this.(source := side) case Executor => this.(executor := side)
    }
  }

  /** The restart policy and the plugins a successful start of the manager enabled. */
  datatype Setup = Setup(policy: Policy, threshold: int, sources: set<Key>, executors: set<Key>)
  {
    function Keys(kind: Kind): set<Key> {
      match kind case Source => sources case Executor => executors
    }

    function AllKeys(): set<Key> { sources + executors }

    predicate OwnedOnlyBy(kind: Kind, key: Key) {
      key in Keys(kind) && key !in Keys(Other(kind))
    }
  }

  function Other(kind: Kind): Kind {
    match kind case Source => Executor case Executor => Source
  }

  datatype Event =
    | WatcherFails(kind: Kind, key: Key)
    | Receive(kind: Kind, key: Key)
    | Delete(kind: Kind)
    | ReadCount(kind: Kind)
    | Decide(kind: Kind)
    | CreateSucceeds(kind: Kind)
    | CreateFails(kind: Kind)
    | Insert(kind: Kind)
    | Notify

  function StartSide(keys: set<Key>): Side {
    Side(Idle, multiset(keys), multiset{}, keys)
  }

  function Start(c: Setup): State {
    State(StartSide(c.sources), StartSide(c.executors), map[], false, [], History(multiset{}, multiset{}, multiset{}))
  }

  function KindOf(e: Event): Kind {
    match e
    case Notify => Source
    case _ => e.kind
  }

  /** Whether an event can happen, as far as the side it happens on is concerned. */
  predicate EnabledOn(side: Side, e: Event) {
    match e
    case WatcherFails(_, key) => side.watching[key] > 0
    case Receive(_, key) => side.phase.Idle? && side.blocked[key] > 0
    case Delete(_) => side.phase.Received?
    case ReadCount(_) => side.phase.Deleted?
    case Decide(_) => side.phase.CountRead?
    case CreateSucceeds(_) => side.phase.Granted?
    case CreateFails(_) => side.phase.Granted?
    case Insert(_) => side.phase.Created?
    case Notify => side.phase.Inserted?
  }

  predicate Enabled(c: Setup, s: State, e: Event) {
    !s.exited && EnabledOn(s.Of(KindOf(e)), e)
  }

  /** What an event does to the side it happens on; `counts` are the shared restart counters. */
  function NextSide(c: Setup, counts: map<Key, nat>, side: Side, e: Event): Side
    requires EnabledOn(side, e)
  {
    match e
    case WatcherFails(_, key) =>
      side.(watching := side.watching[key := side.watching[key] - 1],
            blocked := side.blocked[key := side.blocked[key] + 1])
    case Receive(_, key) => side.(phase := Received(key), blocked := side.blocked[key := side.blocked[key] - 1])
    case Delete(_) => side.(phase := Deleted(side.phase.key), enabled := side.enabled - {side.phase.key})
    case ReadCount(_) => side.(phase := CountRead(side.phase.key, CountOf(counts, side.phase.key)))
    case Decide(_) =>
      var decision := Decision(c.policy, c.threshold, side.phase.restarts);
      side.(phase := if decision.Restart? then Granted(side.phase.key) else Idle)
    case CreateSucceeds(_) =>
      var key := side.phase.key;
      side.(phase := Created(key), watching := side.watching[key := side.watching[key] + 1])
    case CreateFails(_) => side.(phase := Idle)
    case Insert(kind) =>
      var key := side.phase.key;
      side.(phase := if kind.Source? then Inserted(key) else Idle, enabled := side.enabled + {key})
    case Notify => side.(phase := Idle)
  }

  function NextHistory(c: Setup, side: Side, h: History, e: Event): History
    requires EnabledOn(side, e)
  {
    match e
    case Decide(kind) =>
      var entry := (kind, side.phase.key);
      if Decision(c.policy, c.threshold, side.phase.restarts).Restart?
      then h.(granted := h.granted[entry := h.granted[entry] + 1])
      else h.(refused := h.refused[entry := h.refused[entry] + 1])
    case CreateFails(kind) =>
      var entry := (kind, side.phase.key);
      h.(failed := h.failed[entry := h.failed[entry] + 1])
    case _ => h
  }

  function Next(c: Setup, s: State, e: Event): State
    requires Enabled(c, s, e)
  {
    var side := s.Of(KindOf(e));
    var t := s.With(KindOf(e), NextSide(c, s.counts, side, e)).(history := NextHistory(c, side, s.history, e));
    match e
    case Decide(_) =>
      t.(counts := Bumped(s.counts, side.phase.key),
         exited := Decision(c.policy, c.threshold, side.phase.restarts).ExitAgent?)
    case Notify => t.(notified := s.notified + [side.phase.key])
    case _ => t
  }

  /** `es` leads from `s` to `s'`. */
  ghost predicate Run(c: Setup, s: State, es: seq<Event>, s': State)
    decreases |es|
  {
    if es == [] then s == s'
    else Enabled(c, s, es[0]) && Run(c, Next(c, s, es[0]), es[1..], s')
  }

  ghost predicate Leads(c: Setup, s: State, t: State) {
    exists es :: Run(c, s, es, t)
  }

  ghost predicate Reachable(c: Setup, s: State) {
    Leads(c, Start(c), s)
  }

  // ---- the token of a plugin -------------------------------------------------

  /** Live watchers, watchers blocked on the channel, and a handler that has not yet created a client. */
  function Tokens(side: Side, key: Key): nat {
    side.watching[key] + side.blocked[key] + (if HandlerHolds(side.phase, key) then 1 else 0)
  }

  predicate HandlerHolds(phase: Phase, key: Key) {
    match phase
    case Received(k) => k == key
    case Deleted(k) => k == key
    case CountRead(k, _) => k == key
    case Granted(k) => k == key
    case _ => false
  }

  /** At most one token; exactly one for an enabled plugin and for a client about to be enabled. */
  ghost predicate TokenInvariant(side: Side, key: Key) {
    && Tokens(side, key) <= 1
    && (key in side.enabled ==> Tokens(side, key) == 1 && !(HandlerHolds(side.phase, key) && !side.phase.Received?))
    && (side.phase == Created(key) || side.phase == Inserted(key) ==> Tokens(side, key) == 1)
  }

  lemma TokenStep(c: Setup, counts: map<Key, nat>, side: Side, e: Event, key: Key)
    requires EnabledOn(side, e) && TokenInvariant(side, key)
    ensures TokenInvariant(NextSide(c, counts, side, e), key)
    ensures Tokens(NextSide(c, counts, side, e), key) <= Tokens(side, key)
  {
  }

  /** Every token of a plugin enabled at the start is alive, or was spent on one refusal or one failed creation. */
  ghost predicate Conserved(c: Setup, s: State, kind: Kind, key: Key) {
    Tokens(s.Of(kind), key) + s.history.refused[(kind, key)] + s.history.failed[(kind, key)]
    == if key in c.Keys(kind) then 1 else 0
  }

  // ---- restart counters ------------------------------------------------------

  function Grants(s: State, key: Key): nat {
    s.history.granted[(Source, key)] + s.history.granted[(Executor, key)]
  }

  function Refusals(s: State, key: Key): nat {
    s.history.refused[(Source, key)] + s.history.refused[(Executor, key)]
  }

  /** A handler of `key` that has read a counter below the limit and will be granted a restart whatever happens. */
  function Promised(c: Setup, side: Side, key: Key): nat {
    if side.phase.CountRead? && side.phase.key == key
      && side.phase.restarts < Limit(c.policy, c.threshold) then 1 else 0
  }

  ghost predicate CountInvariant(c: Setup, s: State, key: Key) {
    var count := CountOf(s.counts, key);
    var limit := Limit(c.policy, c.threshold);
    && count == Grants(s, key) + Refusals(s, key)
    && (key in s.counts <==> count > 0)
    && (limit == 0 ==> Grants(s, key) == 0)
    && (count >= limit > 0 ==> Grants(s, key) + Promised(c, s.source, key) + Promised(c, s.executor, key) <= limit + 1)
  }

  /** For a plugin only one loop handles, the value read is still current when the loop increments it. */
  ghost predicate OwnerInvariant(c: Setup, s: State, kind: Kind, key: Key) {
    c.OwnedOnlyBy(kind, key) ==>
      && Grants(s, key) == Smaller(CountOf(s.counts, key), Limit(c.policy, c.threshold))
      && (s.Of(kind).phase.CountRead? && s.Of(kind).phase.key == key ==>
            s.Of(kind).phase.restarts == CountOf(s.counts, key))
  }

  function Smaller(a: nat, b: nat): nat { if a < b then a else b }

  predicate HandlerOwesNotice(phase: Phase, key: Key) {
    match phase
    case Granted(k) => k == key
    case Created(k) => k == key
    case Inserted(k) => k == key
    case _ => false
  }

  /** Every granted restart of a source ends in one notification of the scheduler or one failed creation. */
  ghost predicate NoticeInvariant(s: State, key: Key) {
    multiset(s.notified)[key] + s.history.failed[(Source, key)]
      + (if HandlerOwesNotice(s.source.phase, key) then 1 else 0)
    == s.history.granted[(Source, key)]
  }

  /**
   A plugin is enabled exactly while it is watched or its failure is not yet handled, except that a new client is
   watched first.
   */
  ghost predicate StoreInvariant(side: Side, key: Key) {
    key in side.enabled
    <==> (side.watching[key] > 0 || side.blocked[key] > 0 || side.phase == Received(key)) && side.phase != Created(key)
  }

  lemma StoreStep(c: Setup, counts: map<Key, nat>, side: Side, e: Event, key: Key)
    requires EnabledOn(side, e) && TokenInvariant(side, key) && StoreInvariant(side, key)
    ensures StoreInvariant(NextSide(c, counts, side, e), key)
  {
  }

  /** Only a granted restart can fail to create a client. */
  ghost predicate FailureInvariant(s: State, kind: Kind, key: Key) {
    s.history.failed[(kind, key)]
      + (if s.Of(kind).phase == Granted(key) then 1 else 0) <= s.history.granted[(kind, key)]
  }

  lemma FailureStep(c: Setup, s: State, e: Event, kind: Kind, key: Key)
    requires Enabled(c, s, e) && FailureInvariant(s, kind, key)
    ensures FailureInvariant(Next(c, s, e), kind, key)
  {
  }

  ghost predicate SideInvariant(c: Setup, s: State, kind: Kind, key: Key) {
    && TokenInvariant(s.Of(kind), key) && StoreInvariant(s.Of(kind), key)
    && Conserved(c, s, kind, key) && OwnerInvariant(c, s, kind, key) && FailureInvariant(s, kind, key)
  }

  ghost predicate Invariant(c: Setup, s: State) {
    && (forall kind, key :: SideInvariant(c, s, kind, key))
    && (forall key :: CountInvariant(c, s, key) && NoticeInvariant(s, key))
  }

  lemma InvariantAtStart(c: Setup)
    ensures Invariant(c, Start(c))
  {
  }

  /** A refusal or a failed creation spends the token its handler holds. */
  function Spent(c: Setup, side: Side, e: Event, key: Key): nat
    requires EnabledOn(side, e)
  {
    match e
    case Decide(_) =>
      if side.phase.key == key && !Decision(c.policy, c.threshold, side.phase.restarts).Restart? then 1 else 0
    case CreateFails(_) => if side.phase.key == key then 1 else 0
    case _ => 0
  }

  lemma TokenIsSpent(c: Setup, counts: map<Key, nat>, side: Side, e: Event, key: Key)
    requires EnabledOn(side, e)
    ensures Tokens(NextSide(c, counts, side, e), key) + Spent(c, side, e, key) == Tokens(side, key)
  {
  }

  lemma SpendingIsRecorded(c: Setup, side: Side, h: History, e: Event, kind: Kind, key: Key)
    requires EnabledOn(side, e)
    ensures var next := NextHistory(c, side, h, e);
            next.refused[(kind, key)] + next.failed[(kind, key)]
            == h.refused[(kind, key)] + h.failed[(kind, key)]
               + if KindOf(e) == kind then Spent(c, side, e, key) else 0
  {
  }

  lemma ConservedStep(c: Setup, s: State, e: Event, kind: Kind, key: Key)
    requires Enabled(c, s, e) && TokenInvariant(s.Of(kind), key) && Conserved(c, s, kind, key)
    ensures TokenInvariant(Next(c, s, e).Of(kind), key) && Conserved(c, Next(c, s, e), kind, key)
  {
    var side := s.Of(KindOf(e));
    SpendingIsRecorded(c, side, s.history, e, kind, key);
    if KindOf(e) == kind {
      TokenStep(c, s.counts, side, e, key);
      TokenIsSpent(c, s.counts, side, e, key);
    }
  }

  /** The handler of `key` takes its decision now. */
  predicate Decides(s: State, e: Event, key: Key) {
    e.Decide? && s.Of(e.kind).phase.CountRead? && s.Of(e.kind).phase.key == key
  }

  lemma CountersStep(c: Setup, s: State, e: Event, key: Key)
    requires Enabled(c, s, e)
    ensures var t := Next(c, s, e);
            if !Decides(s, e, key) then
              Grants(t, key) == Grants(s, key) && Refusals(t, key) == Refusals(s, key)
                && CountOf(t.counts, key) == CountOf(s.counts, key)
              && (key in t.counts <==> key in s.counts)
            else
              var restart := Decision(c.policy, c.threshold, s.Of(e.kind).phase.restarts).Restart?;
              && CountOf(t.counts, key) == CountOf(s.counts, key) + 1 && key in t.counts
              && Grants(t, key) == Grants(s, key) + (if restart then 1 else 0)
              && Refusals(t, key) == Refusals(s, key) + (if restart then 0 else 1)
  {
  }

  lemma PromisedStep(c: Setup, s: State, e: Event, kind: Kind, key: Key)
    requires Enabled(c, s, e)
    ensures var t := Next(c, s, e);
            && (KindOf(e) != kind ==> Promised(c, t.Of(kind), key) == Promised(c, s.Of(kind), key))
            && (KindOf(e) == kind && !e.ReadCount? ==> Promised(c, t.Of(kind), key) <= Promised(c, s.Of(kind), key))
            && (KindOf(e) == kind && Decides(s, e, key) ==> Promised(c, t.Of(kind), key) == 0)
            && (Promised(c, t.Of(kind), key) > Promised(c, s.Of(kind), key) ==>
                  CountOf(s.counts, key) < Limit(c.policy, c.threshold))
  {
  }

  lemma CountStep(c: Setup, s: State, e: Event, key: Key)
    requires Enabled(c, s, e) && CountInvariant(c, s, key)
    ensures CountInvariant(c, Next(c, s, e), key)
  {
    CountersStep(c, s, e, key);
    PromisedStep(c, s, e, Source, key);
    PromisedStep(c, s, e, Executor, key);
  }

  lemma NotifiedNext(notified: seq<Key>, k: Key, key: Key)
    ensures multiset(notified + [k])[key] == multiset(notified)[key] + (if k == key then 1 else 0)
  {
    assert multiset(notified + [k]) == multiset(notified) + multiset{k};
  }

  lemma NoticeElsewhere(c: Setup, s: State, e: Event, key: Key)
    requires Enabled(c, s, e) && KindOf(e).Executor? && NoticeInvariant(s, key)
    ensures NoticeInvariant(Next(c, s, e), key)
  {
  }

  lemma NoticeInLoop(c: Setup, s: State, e: Event, key: Key)
    requires Enabled(c, s, e) && KindOf(e).Source? && !e.Notify? && NoticeInvariant(s, key)
    ensures NoticeInvariant(Next(c, s, e), key)
  {
    assert Next(c, s, e).notified == s.notified;
  }

  lemma NoticeStep(c: Setup, s: State, e: Event, key: Key)
    requires Enabled(c, s, e) && NoticeInvariant(s, key)
    ensures NoticeInvariant(Next(c, s, e), key)
  {
    if KindOf(e).Executor? {
      NoticeElsewhere(c, s, e, key);
    } else if e.Notify? {
      NotifiedNext(s.notified, s.source.phase.key, key);
    } else {
      NoticeInLoop(c, s, e, key);
    }
  }

  /** A loop that has never had the plugin does not take decisions on it. */
  lemma OwnerStepElsewhere(c: Setup, s: State, e: Event, kind: Kind, key: Key)
    requires Enabled(c, s, e) && KindOf(e) == Other(kind) && OwnerInvariant(c, s, kind, key)
    requires Conserved(c, s, Other(kind), key)
    ensures OwnerInvariant(c, Next(c, s, e), kind, key)
  {
    CountersStep(c, s, e, key);
  }

  lemma OwnerStepHere(c: Setup, s: State, e: Event, kind: Kind, key: Key)
    requires Enabled(c, s, e) && KindOf(e) == kind && OwnerInvariant(c, s, kind, key)
    ensures OwnerInvariant(c, Next(c, s, e), kind, key)
  {
    CountersStep(c, s, e, key);
  }

  lemma OwnerStep(c: Setup, s: State, e: Event, kind: Kind, key: Key)
    requires Enabled(c, s, e) && Invariant(c, s)
    ensures OwnerInvariant(c, Next(c, s, e), kind, key)
  {
    assert SideInvariant(c, s, Other(kind), key);
    assert SideInvariant(c, s, kind, key);
    if KindOf(e) == kind {
      OwnerStepHere(c, s, e, kind, key);
    } else {
      OwnerStepElsewhere(c, s, e, kind, key);
    }
  }

  lemma SideInvariantStep(c: Setup, s: State, e: Event, kind: Kind, key: Key)
    requires Enabled(c, s, e) && Invariant(c, s)
    ensures SideInvariant(c, Next(c, s, e), kind, key)
  {
    assert SideInvariant(c, s, kind, key);
    ConservedStep(c, s, e, kind, key);
    OwnerStep(c, s, e, kind, key);
    FailureStep(c, s, e, kind, key);
    if KindOf(e) == kind {
      StoreStep(c, s.counts, s.Of(kind), e, key);
    }
  }

  lemma InvariantStep(c: Setup, s: State, e: Event)
    requires Enabled(c, s, e) && Invariant(c, s)
    ensures Invariant(c, Next(c, s, e))
  {
    forall kind, key ensures SideInvariant(c, Next(c, s, e), kind, key) {
      SideInvariantStep(c, s, e, kind, key);
    }
    forall key ensures CountInvariant(c, Next(c, s, e), key) && NoticeInvariant(Next(c, s, e), key) {
      CountStep(c, s, e, key);
      NoticeStep(c, s, e, key);
    }
  }

  lemma {:induction false} RunKeepsInvariant(c: Setup, s: State, es: seq<Event>, t: State)
    requires Run(c, s, es, t) && Invariant(c, s)
    ensures Invariant(c, t)
    decreases |es|
  {
    if es != [] {
      InvariantStep(c, s, es[0]);
      RunKeepsInvariant(c, Next(c, s, es[0]), es[1..], t);
    }
  }

  lemma ReachableInvariant(c: Setup, s: State)
    requires Reachable(c, s)
    ensures Invariant(c, s)
  {
    var es :| Run(c, Start(c), es, s);
    InvariantAtStart(c);
    RunKeepsInvariant(c, Start(c), es, s);
  }

  lemma {:induction false} RunThen(c: Setup, s: State, es: seq<Event>, t: State, e: Event)
    requires Run(c, s, es, t) && Enabled(c, t, e)
    ensures Run(c, s, es + [e], Next(c, t, e))
    decreases |es|
  {
    if es == [] {
      assert Run(c, Next(c, t, e), [], Next(c, t, e));
    } else {
      RunThen(c, Next(c, s, es[0]), es[1..], t, e);
      assert (es + [e])[1..] == es[1..] + [e];
    }
  }

  lemma LeadsThen(c: Setup, s: State, t: State, e: Event)
    requires Leads(c, s, t) && Enabled(c, t, e)
    ensures Leads(c, s, Next(c, t, e))
  {
    var es :| Run(c, s, es, t);
    RunThen(c, s, es, t, e);
  }

  // ---- main results ----------------------------------------------------------

  /** The supervision token: never two, exactly one for an enabled plugin, and every lost one is accounted for. */
  lemma OneTokenPerPlugin(c: Setup, s: State, kind: Kind, key: Key)
    requires Reachable(c, s)
    ensures Tokens(s.Of(kind), key) <= 1
    ensures key in s.Of(kind).enabled ==> Tokens(s.Of(kind), key) == 1
    ensures key in c.Keys(kind) ==>
      Tokens(s.Of(kind), key) + s.history.refused[(kind, key)] + s.history.failed[(kind, key)] == 1
  {
    ReachableInvariant(c, s);
    assert SideInvariant(c, s, kind, key);
  }

  /**
   A plugin can be used exactly while it is watched or its failure is not yet handled, except while its new client
   is inserted.
   */
  lemma EnabledIffWatched(c: Setup, s: State, kind: Kind, key: Key)
    requires Reachable(c, s)
    ensures var side := s.Of(kind);
            key in side.enabled
            <==>
            && (side.watching[key] > 0 || side.blocked[key] > 0 || side.phase == Received(key))
            && side.phase != Created(key)
  {
    ReachableInvariant(c, s);
    assert SideInvariant(c, s, kind, key);
  }

  /** Between two source handlers, the scheduler has been told of every restart whose client could be created, once. */
  lemma EveryRestartIsNotified(c: Setup, s: State, key: Key)
    requires Reachable(c, s) && s.source.phase.Idle?
    ensures multiset(s.notified)[key] + s.history.failed[(Source, key)] == s.history.granted[(Source, key)]
    ensures multiset(s.notified)[key] <= Limit(c.policy, c.threshold) + 1
  {
    ReachableInvariant(c, s);
    assert NoticeInvariant(s, key) && CountInvariant(c, s, key);
    RestartBound(c, s, key);
  }

  lemma {:induction false} GoneInRun(c: Setup, s: State, es: seq<Event>, t: State, kind: Kind, key: Key)
    requires Run(c, s, es, t) && TokenInvariant(s.Of(kind), key) && Tokens(s.Of(kind), key) == 0
    ensures TokenInvariant(t.Of(kind), key) && Tokens(t.Of(kind), key) == 0
    ensures t.history.granted[(kind, key)] == s.history.granted[(kind, key)]
    decreases |es|
  {
    if es != [] {
      if KindOf(es[0]) == kind {
        TokenStep(c, s.counts, s.Of(kind), es[0], key);
      }
      GoneInRun(c, Next(c, s, es[0]), es[1..], t, kind, key);
    }
  }

  /** A plugin whose token is gone is never enabled and never restarted again, in any continuation. */
  lemma GoneForever(c: Setup, s: State, t: State, kind: Kind, key: Key)
    requires Reachable(c, s) && Tokens(s.Of(kind), key) == 0 && Leads(c, s, t)
    ensures key !in t.Of(kind).enabled
    ensures Tokens(t.Of(kind), key) == 0
    ensures t.history.granted[(kind, key)] == s.history.granted[(kind, key)]
  {
    ReachableInvariant(c, s);
    assert SideInvariant(c, s, kind, key);
    var es :| Run(c, s, es, t);
    GoneInRun(c, s, es, t, kind, key);
  }

  /** The token of a single-owner plugin moves only on its own side. */
  lemma SingleOwnerCounts(c: Setup, s: State, kind: Kind, key: Key)
    requires Reachable(c, s) && c.OwnedOnlyBy(kind, key)
    ensures Grants(s, key) == Smaller(CountOf(s.counts, key), Limit(c.policy, c.threshold))
    ensures CountOf(s.counts, key) == Grants(s, key) + s.history.refused[(kind, key)]
    ensures s.history.refused[(kind, key)] <= 1
    ensures key in s.counts <==> CountOf(s.counts, key) > 0
  {
    ReachableInvariant(c, s);
    assert CountInvariant(c, s, key);
    assert SideInvariant(c, s, kind, key) && SideInvariant(c, s, Other(kind), key);
  }

  /** A plugin handled by one loop is restarted at most `threshold` times. */
  lemma SingleOwnerRestartBound(c: Setup, s: State, kind: Kind, key: Key)
    requires Reachable(c, s) && c.OwnedOnlyBy(kind, key)
    ensures Grants(s, key) <= Limit(c.policy, c.threshold)
  {
    SingleOwnerCounts(c, s, kind, key);
  }

  /** Two loops sharing one counter exceed the threshold by at most one restart. */
  lemma RestartBound(c: Setup, s: State, key: Key)
    requires Reachable(c, s)
    ensures Grants(s, key) <= Limit(c.policy, c.threshold) + 1
    ensures Limit(c.policy, c.threshold) == 0 ==> Grants(s, key) == 0
  {
    ReachableInvariant(c, s);
    assert CountInvariant(c, s, key);
  }

  // ---- every run ends --------------------------------------------------------

  function PhaseWeight(phase: Phase, key: Key): nat {
    match phase
    case Idle => 0
    case Received(k) => if k == key then 6 else 0
    case Deleted(k) => if k == key then 5 else 0
    case CountRead(k, _) => if k == key then 4 else 0
    case Granted(k) => if k == key then 12 else 0
    case Created(k) => if k == key then 3 else 0
    case Inserted(k) => if k == key then 2 else 0
  }

  function SideWeight(side: Side, key: Key): nat {
    8 * side.watching[key] + 7 * side.blocked[key] + PhaseWeight(side.phase, key)
  }

  /** An upper bound on the events still to come for `key`. */
  function Weight(c: Setup, s: State, key: Key): int {
    SideWeight(s.source, key) + SideWeight(s.executor, key)
    + 10 * (Limit(c.policy, c.threshold) + 3 - CountOf(s.counts, key))
  }

  ghost function TotalWeight(c: Setup, s: State): int {
    Sum(c.AllKeys(), key => Weight(c, s, key))
  }

  function EventKey(side: Side, e: Event): Key
    requires EnabledOn(side, e)
  {
    match e
    case WatcherFails(_, key) => key
    case Receive(_, key) => key
    case _ => side.phase.key
  }

  lemma EventsOfKnownKeys(c: Setup, s: State, e: Event)
    requires Invariant(c, s) && Enabled(c, s, e)
    ensures EventKey(s.Of(KindOf(e)), e) in c.AllKeys()
  {
    assert SideInvariant(c, s, KindOf(e), EventKey(s.Of(KindOf(e)), e));
  }

  lemma SideWeightStep(c: Setup, counts: map<Key, nat>, side: Side, e: Event, key: Key)
    requires EnabledOn(side, e)
    ensures key != EventKey(side, e) ==> SideWeight(NextSide(c, counts, side, e), key) == SideWeight(side, key)
    ensures key == EventKey(side, e) ==>
      SideWeight(NextSide(c, counts, side, e), key) <= SideWeight(side, key) + (if e.Decide? then 8 else -1)
  {
    var next := NextSide(c, counts, side, e);
    match e
    case WatcherFails(_, k) =>
      assert next.phase == side.phase;
    case Receive(_, k) =>
      assert next.watching == side.watching;
    case _ =>
  }

  lemma WeightStep(c: Setup, s: State, e: Event, key: Key)
    requires Enabled(c, s, e)
    ensures Weight(c, Next(c, s, e), key) <= Weight(c, s, key) - (if key == EventKey(s.Of(KindOf(e)), e) then 1 else 0)
    ensures key != EventKey(s.Of(KindOf(e)), e) ==> Weight(c, Next(c, s, e), key) == Weight(c, s, key)
  {
    var side := s.Of(KindOf(e));
    SideWeightStep(c, s.counts, side, e, key);
    var t := Next(c, s, e);
    assert t.Of(KindOf(e)) == NextSide(c, s.counts, side, e) && t.Of(Other(KindOf(e))) == s.Of(Other(KindOf(e)));
    assert CountOf(t.counts, key) == CountOf(s.counts, key) + (if e.Decide? && key == side.phase.key then 1 else 0);
    WeightBySide(c, s, KindOf(e), key);
    WeightBySide(c, t, KindOf(e), key);
  }

  lemma WeightBySide(c: Setup, s: State, kind: Kind, key: Key)
    ensures Weight(c, s, key) == SideWeight(s.Of(kind), key) + SideWeight(s.Of(Other(kind)), key)
                                 + 10 * (Limit(c.policy, c.threshold) + 3 - CountOf(s.counts, key))
  {
  }

  lemma WeightNatural(c: Setup, s: State, key: Key)
    requires Invariant(c, s)
    ensures Weight(c, s, key) >= 0
  {
    assert CountInvariant(c, s, key);
    assert SideInvariant(c, s, Source, key) && SideInvariant(c, s, Executor, key);
  }

  lemma TotalWeightStep(c: Setup, s: State, e: Event)
    requires Invariant(c, s) && Enabled(c, s, e)
    ensures TotalWeight(c, Next(c, s, e)) < TotalWeight(c, s)
  {
    var t := Next(c, s, e);
    var key := EventKey(s.Of(KindOf(e)), e);
    EventsOfKnownKeys(c, s, e);
    forall k { WeightStep(c, s, e, k); }
    SumChange(c.AllKeys(), k => Weight(c, s, k), k => Weight(c, t, k), key);
  }

  lemma {:induction false} RunLowersWeight(c: Setup, s: State, es: seq<Event>, t: State)
    requires Invariant(c, s) && Run(c, s, es, t)
    ensures |es| <= TotalWeight(c, s) - TotalWeight(c, t)
    decreases |es|
  {
    if es != [] {
      TotalWeightStep(c, s, es[0]);
      InvariantStep(c, s, es[0]);
      RunLowersWeight(c, Next(c, s, es[0]), es[1..], t);
    }
  }

  /** Supervision terminates: no run is longer than a bound fixed by the threshold and the number of plugins. */
  lemma EveryRunIsBounded(c: Setup, es: seq<Event>, t: State)
    requires Run(c, Start(c), es, t)
    ensures |es| <= (46 + 10 * Limit(c.policy, c.threshold)) * |c.AllKeys()|
  {
    InvariantAtStart(c);
    RunKeepsInvariant(c, Start(c), es, t);
    RunLowersWeight(c, Start(c), es, t);
    var high := 46 + 10 * Limit(c.policy, c.threshold);
    SumAtMost(c.AllKeys(), key => Weight(c, Start(c), key), high);
    forall key { WeightNatural(c, t, key); }
    var top := Sum(c.AllKeys(), key => Weight(c, t, key));
    SumNatural(c.AllKeys(), key => Weight(c, t, key));
  }

  // ---- when the agent exits ----------------------------------------------------

  /** Executors are restarted without telling the scheduler. */
  ghost predicate ExitInvariant(c: Setup, s: State) {
    && (s.exited <==> c.policy == RestartAgent && s.history.refused != multiset{})
    && !s.executor.phase.Inserted?
  }

  lemma ExitStep(c: Setup, s: State, e: Event)
    requires Enabled(c, s, e) && ExitInvariant(c, s)
    ensures ExitInvariant(c, Next(c, s, e))
  {
    var t := Next(c, s, e);
    if e.Decide? {
      var side := s.Of(e.kind);
      var entry := (e.kind, side.phase.key);
      DecisionMeaning(c.policy, c.threshold, side.phase.restarts);
      assert t.history.refused != s.history.refused ==> t.history.refused[entry] > 0;
    } else {
      assert t.history.refused == s.history.refused;
    }
  }

  lemma {:induction false} ExitInRun(c: Setup, s: State, es: seq<Event>, t: State)
    requires Run(c, s, es, t) && ExitInvariant(c, s)
    ensures ExitInvariant(c, t)
    decreases |es|
  {
    if es != [] {
      ExitStep(c, s, es[0]);
      ExitInRun(c, Next(c, s, es[0]), es[1..], t);
    }
  }

  /**
   The agent has exited if and only if its policy says so and some restart was refused. Under the other policies a
   refusal concerns nobody but the plugin.
   */
  lemma ExitedIffRefused(c: Setup, s: State)
    requires Reachable(c, s)
    ensures s.exited <==> c.policy == RestartAgent && exists kind, key :: s.history.refused[(kind, key)] > 0
  {
    var es :| Run(c, Start(c), es, s);
    ExitInRun(c, Start(c), es, s);
    if s.history.refused != multiset{} {
      var entry :| entry in s.history.refused;
      assert s.history.refused[(entry.0, entry.1)] > 0;
    }
  }

  /** As long as the agent runs, supervision of a plugin that has its token can go on. */
  lemma TokenCanMove(c: Setup, s: State, kind: Kind, key: Key) returns (e: Event)
    requires Reachable(c, s) && !s.exited && Tokens(s.Of(kind), key) > 0
    ensures Enabled(c, s, e) && KindOf(e) == kind
  {
    var es :| Run(c, Start(c), es, s);
    ExitInRun(c, Start(c), es, s);
    var side := s.Of(kind);
    match side.phase
    case Received(_) => e := Delete(kind);
    case Deleted(_) => e := ReadCount(kind);
    case CountRead(_, _) => e := Decide(kind);
    case Granted(_) => e := CreateSucceeds(kind);
    case Created(_) => e := Insert(kind);
    case Inserted(_) => e := Notify;
    case Idle => e := if side.watching[key] > 0 then WatcherFails(kind, key) else Receive(kind, key);
  }

  // ---- what the health statistics say ----------------------------------------

  /** An unknown policy refuses every restart but leaves the counter below a positive threshold. */
  predicate CountsRefusals(c: Setup) {
    c.policy != UnknownPolicy || c.threshold < 1
  }

  /** The status of the plugin tells whether this loop has refused to restart it. */
  ghost predicate StatusTruthful(c: Setup, s: State, kind: Kind, key: Key) {
    StatusOf(s.counts, c.threshold, key) == Deactivated <==> s.history.refused[(kind, key)] > 0
  }

  /** For a single-owner plugin, "Deactivated" is reported exactly when a restart has been refused. */
  lemma DeactivatedIffRefused(c: Setup, s: State, kind: Kind, key: Key)
    requires Reachable(c, s) && c.OwnedOnlyBy(kind, key)
    ensures StatusTruthful(c, s, kind, key) <==> CountsRefusals(c) || s.history.refused[(kind, key)] == 0
    ensures StatusOf(s.counts, c.threshold, key) == Deactivated ==>
      s.history.refused[(kind, key)] > 0 && Tokens(s.Of(kind), key) == 0 && key !in s.Of(kind).enabled
  {
    SingleOwnerCounts(c, s, kind, key);
    OneTokenPerPlugin(c, s, kind, key);
  }

  lemma DeactivatedForever(c: Setup, s: State, t: State, kind: Kind, key: Key)
    requires Reachable(c, s) && c.OwnedOnlyBy(kind, key) && Leads(c, s, t)
    requires StatusOf(s.counts, c.threshold, key) == Deactivated
    ensures key !in t.Of(kind).enabled
    ensures t.history.granted[(kind, key)] == s.history.granted[(kind, key)]
  {
    DeactivatedIffRefused(c, s, kind, key);
    GoneForever(c, s, t, kind, key);
  }

  /**
   "Running" coincides with being supervised unless creating the plugin's client failed, or an unknown policy refused
   the restart without the counter exceeding the threshold: then the plugin is gone unreported.
   */
  lemma RunningMeansSupervisedUnlessGoneUnreported(c: Setup, s: State, kind: Kind, key: Key)
    requires Reachable(c, s) && c.OwnedOnlyBy(kind, key)
    ensures (StatusOf(s.counts, c.threshold, key) == Running <==> Tokens(s.Of(kind), key) == 1)
      <==> s.history.failed[(kind, key)] == 0 && (CountsRefusals(c) || s.history.refused[(kind, key)] == 0)
  {
    SingleOwnerCounts(c, s, kind, key);
    DeactivatedIffRefused(c, s, kind, key);
    OneTokenPerPlugin(c, s, kind, key);
  }

  // ---- plugins handled by both loops -----------------------------------------

  ghost predicate Ready(c: Setup, s: State, kind: Kind, key: Key) {
    && !s.exited
    && s.Of(kind).phase.Idle?
    && s.Of(kind).watching[key] > 0
    && key in s.Of(kind).enabled
  }

  /** A watcher of `key` fails and its handler gets as far as reading the counter. */
  lemma FailAndRead(c: Setup, s0: State, s: State, kind: Kind, key: Key) returns (t: State)
    requires Leads(c, s0, s) && Ready(c, s, kind, key)
    ensures Leads(c, s0, t)
    ensures t.Of(kind).phase == CountRead(key, CountOf(s.counts, key))
    ensures t.Of(Other(kind)) == s.Of(Other(kind))
    ensures t.counts == s.counts && t.history == s.history && !t.exited
  {
    LeadsThen(c, s0, s, WatcherFails(kind, key));
    t := Next(c, s, WatcherFails(kind, key));
    LeadsThen(c, s0, t, Receive(kind, key));
    t := Next(c, t, Receive(kind, key));
    LeadsThen(c, s0, t, Delete(kind));
    t := Next(c, t, Delete(kind));
    LeadsThen(c, s0, t, ReadCount(kind));
    t := Next(c, t, ReadCount(kind));
  }

  /** One complete restart of `key` by one loop. */
  lemma RestartOnce(c: Setup, s0: State, s: State, kind: Kind, key: Key) returns (t: State)
    requires Leads(c, s0, s) && Ready(c, s, kind, key)
    requires CountOf(s.counts, key) < Limit(c.policy, c.threshold)
    ensures Leads(c, s0, t) && Ready(c, t, kind, key)
    ensures t.Of(Other(kind)) == s.Of(Other(kind))
    ensures CountOf(t.counts, key) == CountOf(s.counts, key) + 1
    ensures t.history.refused == s.history.refused
  {
    t := FailAndRead(c, s0, s, kind, key);
    LeadsThen(c, s0, t, Decide(kind));
    t := Next(c, t, Decide(kind));
    LeadsThen(c, s0, t, CreateSucceeds(kind));
    t := Next(c, t, CreateSucceeds(kind));
    LeadsThen(c, s0, t, Insert(kind));
    t := Next(c, t, Insert(kind));
    if kind == Source {
      LeadsThen(c, s0, t, Notify);
      t := Next(c, t, Notify);
    }
  }

  /** A loop can use up the whole budget of restarts. */
  lemma {:induction false} RestartUntilLimit(c: Setup, s0: State, s: State, kind: Kind, key: Key) returns (t: State)
    requires Leads(c, s0, s) && Ready(c, s, kind, key)
    requires CountOf(s.counts, key) <= Limit(c.policy, c.threshold)
    ensures Leads(c, s0, t) && Ready(c, t, kind, key)
    ensures t.Of(Other(kind)) == s.Of(Other(kind))
    ensures CountOf(t.counts, key) == Limit(c.policy, c.threshold)
    ensures t.history.refused == s.history.refused
    decreases Limit(c.policy, c.threshold) - CountOf(s.counts, key)
  {
    t := s;
    if CountOf(s.counts, key) < Limit(c.policy, c.threshold) {
      t := RestartOnce(c, s0, s, kind, key);
      t := RestartUntilLimit(c, s0, t, kind, key);
    }
  }

  /** One more failure is refused; the other loop sees it in the counter only. */
  lemma RefusedAtLimit(c: Setup, s0: State, s: State, kind: Kind, key: Key) returns (t: State)
    requires Leads(c, s0, s) && Ready(c, s, kind, key) && CountsRefusals(c)
    requires CountOf(s.counts, key) == Limit(c.policy, c.threshold)
    ensures Leads(c, s0, t) && StatusOf(t.counts, c.threshold, key) == Deactivated
    ensures t.Of(Other(kind)) == s.Of(Other(kind))
    ensures t.history.refused[(Other(kind), key)] == s.history.refused[(Other(kind), key)]
  {
    t := FailAndRead(c, s0, s, kind, key);
    LeadsThen(c, s0, t, Decide(kind));
    t := Next(c, t, Decide(kind));
  }

  lemma StartIsReachable(c: Setup, kind: Kind, key: Key)
    requires key in c.Keys(kind)
    ensures Reachable(c, Start(c)) && Ready(c, Start(c), kind, key)
  {
    assert Run(c, Start(c), [], Start(c));
  }

  /**
   One loop reads the counter and stalls while the other uses up the budget; then the first is still granted a
   restart.
   */
  lemma SharedKeyExceedsThreshold(c: Setup, key: Key) returns (s: State)
    requires key in c.sources && key in c.executors && Limit(c.policy, c.threshold) > 0
    ensures Reachable(c, s) && Grants(s, key) == Limit(c.policy, c.threshold) + 1
  {
    StartIsReachable(c, Source, key);
    s := FailAndRead(c, Start(c), Start(c), Source, key);
    s := RestartUntilLimit(c, Start(c), s, Executor, key);
    LeadsThen(c, Start(c), s, Decide(Source));
    s := Next(c, s, Decide(Source));
    ReachableInvariant(c, s);
    assert CountInvariant(c, s, key);
  }

  /**
   The restart threshold is respected in every run exactly for plugins that are not both a source and an executor, or
   are never restarted at all.
   */
  lemma ThresholdRespectedIffOneOwner(c: Setup, key: Key)
    requires key in c.AllKeys()
    ensures (forall s | Reachable(c, s) :: Grants(s, key) <= Limit(c.policy, c.threshold))
      <==> (c.OwnedOnlyBy(Source, key) || c.OwnedOnlyBy(Executor, key) || Limit(c.policy, c.threshold) == 0)
  {
    if Limit(c.policy, c.threshold) == 0 {
      forall s | Reachable(c, s) ensures Grants(s, key) == 0 {
        RestartBound(c, s, key);
      }
    } else if key in c.sources && key in c.executors {
      var s := SharedKeyExceedsThreshold(c, key);
    } else {
      var kind := if key in c.sources then Source else Executor;
      forall s | Reachable(c, s) ensures Grants(s, key) <= Limit(c.policy, c.threshold) {
        SingleOwnerRestartBound(c, s, kind, key);
      }
    }
  }

  /**
   The other loop's refusal is charged to the shared counter: the plugin is reported deactivated while this loop
   still runs it.
   */
  lemma SharedKeyReportedTooEarly(c: Setup, kind: Kind, key: Key) returns (s: State)
    requires key in c.sources && key in c.executors && CountsRefusals(c)
    ensures Reachable(c, s) && StatusOf(s.counts, c.threshold, key) == Deactivated
    ensures s.history.refused[(kind, key)] == 0 && key in s.Of(kind).enabled
  {
    StartIsReachable(c, kind, key);
    StartIsReachable(c, Other(kind), key);
    s := RestartUntilLimit(c, Start(c), Start(c), kind, key);
    s := RefusedAtLimit(c, Start(c), s, Other(kind), key);
  }

  /** Under an unknown policy the first failure is the last, and the status does not change. */
  lemma UnknownPolicyRefusesUnreported(c: Setup, kind: Kind, key: Key) returns (s: State)
    requires key in c.Keys(kind) && !CountsRefusals(c)
    ensures Reachable(c, s) && s.Of(kind).phase.Idle? && StatusOf(s.counts, c.threshold, key) == Running
    ensures s.history.refused[(kind, key)] > 0 && s.history.failed[(kind, key)] == 0
    ensures Tokens(s.Of(kind), key) == 0 && key !in s.Of(kind).enabled
  {
    StartIsReachable(c, kind, key);
    s := FailAndRead(c, Start(c), Start(c), kind, key);
    LeadsThen(c, Start(c), s, Decide(kind));
    s := Next(c, s, Decide(kind));
    OneTokenPerPlugin(c, s, kind, key);
  }

  /** A restart is granted but its client cannot be created: the plugin is gone and still reported as running. */
  lemma FailedCreationIsUnreported(c: Setup, kind: Kind, key: Key) returns (s: State)
    requires key in c.Keys(kind) && Limit(c.policy, c.threshold) > 0
    ensures Reachable(c, s) && s.Of(kind).phase.Idle? && StatusOf(s.counts, c.threshold, key) == Running
    ensures s.history.refused[(kind, key)] == 0 && s.history.failed[(kind, key)] > 0
    ensures Tokens(s.Of(kind), key) == 0 && key !in s.Of(kind).enabled
  {
    StartIsReachable(c, kind, key);
    s := FailAndRead(c, Start(c), Start(c), kind, key);
    LeadsThen(c, Start(c), s, Decide(kind));
    s := Next(c, s, Decide(kind));
    LeadsThen(c, Start(c), s, CreateFails(kind));
    s := Next(c, s, CreateFails(kind));
    OneTokenPerPlugin(c, s, kind, key);
  }

  /**
   The reported status tells whether a restart was refused, in every run, exactly for plugins owned by one loop under a
   policy that is known or a threshold below one.
   */
  lemma StatusTruthfulIff(c: Setup, kind: Kind, key: Key)
    requires key in c.Keys(kind)
    ensures (forall s | Reachable(c, s) :: StatusTruthful(c, s, kind, key)) <==>
      c.OwnedOnlyBy(kind, key) && CountsRefusals(c)
  {
    if !CountsRefusals(c) {
      var s := UnknownPolicyRefusesUnreported(c, kind, key);
      assert !StatusTruthful(c, s, kind, key);
    } else if !c.OwnedOnlyBy(kind, key) {
      var s := SharedKeyReportedTooEarly(c, kind, key);
      assert !StatusTruthful(c, s, kind, key);
    } else {
      forall s | Reachable(c, s) ensures StatusTruthful(c, s, kind, key) {
        DeactivatedIffRefused(c, s, kind, key);
      }
    }
  }

  lemma NoGrantNoFailure(c: Setup, s: State, kind: Kind, key: Key)
    requires Reachable(c, s) && c.threshold < 1
    ensures s.history.failed[(kind, key)] == 0
  {
    RestartBound(c, s, key);
    ReachableInvariant(c, s);
    assert SideInvariant(c, s, kind, key);
  }

  /** While the loop is not handling a failure, a plugin reported as running can be used. */
  ghost predicate RunningIsUsable(c: Setup, s: State, kind: Kind, key: Key) {
    s.Of(kind).phase.Idle? ==> (StatusOf(s.counts, c.threshold, key) == Running <==> key in s.Of(kind).enabled)
  }

  lemma UsableWithoutRestarts(c: Setup, s: State, kind: Kind, key: Key)
    requires Reachable(c, s) && c.OwnedOnlyBy(kind, key) && c.threshold < 1
    ensures RunningIsUsable(c, s, kind, key)
  {
    NoGrantNoFailure(c, s, kind, key);
    RunningMeansSupervisedUnlessGoneUnreported(c, s, kind, key);
    EnabledIffWatched(c, s, kind, key);
    OneTokenPerPlugin(c, s, kind, key);
  }

  /** For a single-owner plugin "Running" means usable in every run if and only if restarts are never allowed. */
  lemma RunningIsUsableIff(c: Setup, kind: Kind, key: Key)
    requires c.OwnedOnlyBy(kind, key)
    ensures (forall s | Reachable(c, s) :: RunningIsUsable(c, s, kind, key)) <==> c.threshold < 1
  {
    if c.threshold < 1 {
      forall s | Reachable(c, s) ensures RunningIsUsable(c, s, kind, key) {
        UsableWithoutRestarts(c, s, kind, key);
      }
    } else if c.policy == UnknownPolicy {
      var s := UnknownPolicyRefusesUnreported(c, kind, key);
      assert !RunningIsUsable(c, s, kind, key);
    } else {
      var s := FailedCreationIsUnreported(c, kind, key);
      assert !RunningIsUsable(c, s, kind, key);
    }
  }
}
