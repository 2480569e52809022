/**
 New streams of the Kubernetes source while the previous background process is still configuring itself. Storing a new
 configuration, waiting for the old process to stop, and the old process storing its own copies again are separate
 steps.
 */
module BackgroundProcess {
  import opened KubernetesConfig

  /** A place in the clone of the store: a group and a key in it. */
  datatype Slot = Slot(kubeConfig: string, key: string)

  /** How far the current call of the stream has come; calls exclude each other. */
  datatype Phase = Quiet | Stored(key: string, cfg: SourceConfig) | Stopped

  /**
   The store, the groups of its index, the copies the background process has not yet stored again, and the number of
   event channels made.
   */
  datatype State = State(store: map<string, SourceConfig>, groups: set<Slot>, pending: map<Slot, SourceConfig>,
                         channels: nat, phase: Phase)

  datatype Event =
    | Put(key: string, cfg: SourceConfig)  // a call stores its configuration with a new channel
    | Restore(slot: Slot)                  // the background process stores one of its copies
    | Wait                                 // the background process has finished
    | Start                                // a new one starts with a clone of the store

  const INIT := State(map[], {}, map[], 0, Quiet)

  predicate Enabled(s: State, e: Event) {
    match e
    case Put(_, cfg) => s.phase.Quiet? && cfg.eventCh == s.channels
    case Restore(slot) => slot in s.pending
    case Wait => s.phase.Stored? && s.pending == map[]
    case Start => s.phase.Stopped?
  }

  function Clone(s: State): map<Slot, SourceConfig> {
    map slot | slot in s.groups && slot.key in s.store :: s.store[slot.key]
  }

  function Next(s: State, e: Event): State
    requires Enabled(s, e)
  {
    match e
    case Put(key, cfg) =>
      State(s.store[key := cfg], s.groups + {Slot(cfg.kubeConfig, key)}, s.pending, s.channels + 1, Stored(key, cfg))
    case Restore(slot) =>
      var cfg := s.pending[slot];
      State(s.store[slot.key := cfg], s.groups + {Slot(cfg.kubeConfig, slot.key)}, s.pending - {slot}, s.channels,
            s.phase)
    case Wait => s.(phase := Stopped)
    case Start => s.(pending := Clone(s), phase := Quiet)
  }

  ghost predicate Run(s: State, es: seq<Event>, t: State)
    decreases |es|
  {
    if es == [] then s == t else Enabled(s, es[0]) && Run(Next(s, es[0]), es[1..], t)
  }

  ghost predicate Reachable(s: State) {
    exists es :: Run(INIT, es, s)
  }

  // ---- what every state keeps ------------------------------------------------------------

  /** Every group has configurations to offer, and every copy is of one of them. */
  ghost predicate Grouped(s: State) {
    && (forall slot | slot in s.groups :: slot.key in s.store)
    && (forall slot | slot in s.pending :: slot.key in s.store)
  }

  /**
   Between calls the copies are what is stored. During a call they are, except for the key of the call, whose copies
   agree.
   */
  ghost predicate CopiesAgree(s: State) {
    && (forall a, b | a in s.pending && b in s.pending && a.key == b.key :: s.pending[a] == s.pending[b])
    && (forall slot | slot in s.pending && slot.key in s.store ::
          s.pending[slot] == s.store[slot.key] || (s.phase.Stored? && s.phase.key == slot.key))
  }

  ghost predicate ChannelsMade(s: State) {
    && (forall key | key in s.store :: s.store[key].eventCh < s.channels)
    && (forall slot | slot in s.pending :: s.pending[slot].eventCh < s.channels)
  }

  ghost predicate Invariant(s: State) {
    Grouped(s) && CopiesAgree(s) && ChannelsMade(s) && (s.phase.Stopped? ==> s.pending == map[])
  }

  lemma InvariantNext(s: State, e: Event)
    requires Invariant(s) && Enabled(s, e)
    ensures Invariant(Next(s, e))
  {
  }

  lemma {:induction false} RunKeepsInvariant(s: State, es: seq<Event>, t: State)
    requires Run(s, es, t) && Invariant(s)
    ensures Invariant(t)
    decreases |es|
  {
    if es != [] {
      InvariantNext(s, es[0]);
      RunKeepsInvariant(Next(s, es[0]), es[1..], t);
    }
  }

  lemma ReachableInvariant(s: State)
    requires Reachable(s)
    ensures Invariant(s)
  {
    var es :| Run(INIT, es, s);
    RunKeepsInvariant(INIT, es, s);
  }

  // ---- one call ----------------------------------------------------------------------------

  ghost predicate KeyPending(s: State, key: string) {
    exists slot :: slot in s.pending && slot.key == key
  }

  /** While a call waits, only the background process goes on. */
  ghost predicate OnlyRestores(es: seq<Event>) {
    forall e | e in es :: e.Restore?
  }

  /** What the copies still to be stored make of the store. */
  ghost predicate Settles(s: State, t: State, key: string)
    requires key in s.store
  {
    && key in t.store
    && (forall slot | slot in s.pending && slot.key == key :: t.store[key] == s.pending[slot])
    && (!KeyPending(s, key) ==> t.store[key] == s.store[key])
  }

  lemma {:induction false} RestoresSettle(s: State, es: seq<Event>, t: State, key: string)
    requires Invariant(s) && Run(s, es, t) && OnlyRestores(es) && t.pending == map[] && key in s.store
    ensures Settles(s, t, key) && t.phase == s.phase
    decreases |es|
  {
    if es != [] {
      assert es[0] in es && forall e | e in es[1..] :: e in es;
      var next := Next(s, es[0]);
      InvariantNext(s, es[0]);
      RestoresSettle(next, es[1..], t, key);
      RestoreSettles(s, next, t, es[0].slot, key);
    }
  }

  lemma RestoreSettles(s: State, next: State, t: State, slot: Slot, key: string)
    requires Invariant(s) && slot in s.pending && next == Next(s, Restore(slot)) && key in s.store
    requires Settles(next, t, key)
    ensures Settles(s, t, key)
  {
    forall other | other in s.pending && other.key == key ensures t.store[key] == s.pending[other] {
      if other != slot {
        assert other in next.pending;
      }
    }
    if !KeyPending(s, key) {
      assert slot.key != key && !KeyPending(next, key);
    }
  }

  /**
   A call stores a configuration with the channel it returns, and waits. When the background process has finished, the
   store has that configuration, and events go to that channel, if and only if the process had no copy of the key left
   to store when the call began, whatever the copy is. Other keys are as they were.
   */
  lemma CallKeepsItsConfigurationIff(s: State, key: string, cfg: SourceConfig, es: seq<Event>, t: State)
    requires Reachable(s) && Enabled(s, Put(key, cfg))
    requires Run(Next(s, Put(key, cfg)), es, t) && OnlyRestores(es) && t.pending == map[]
    ensures key in t.store && (t.store[key] == cfg <==> !KeyPending(s, key))
    ensures t.store[key].eventCh == cfg.eventCh <==> !KeyPending(s, key)
    ensures forall k | k in s.store && k != key :: k in t.store && t.store[k] == s.store[k]
  {
    ReachableInvariant(s);
    var called := Next(s, Put(key, cfg));
    InvariantNext(s, Put(key, cfg));
    RestoresSettle(called, es, t, key);
    if slot :| slot in s.pending && slot.key == key {
      assert slot in called.pending && t.store[key] == s.pending[slot];
    }
    forall k | k in s.store && k != key ensures k in t.store && t.store[k] == s.store[k] {
      RestoresSettle(called, es, t, k);
      if slot :| slot in called.pending && slot.key == k {
        assert s.pending[slot] == s.store[k];
      }
    }
  }

  // ---- a configuration that is lost ----------------------------------------------------------

  lemma {:induction false} RunThen(s: State, es: seq<Event>, t: State, e: Event) returns (u: State)
    requires Run(s, es, t) && Enabled(t, e)
    ensures Run(s, es + [e], u) && u == Next(t, e)
    decreases |es|
  {
    if es == [] {
      assert [e][1..] == [];
      u := Next(t, e);
    } else {
      u := RunThen(Next(s, es[0]), es[1..], t, e);
      assert (es + [e])[1..] == es[1..] + [e];
    }
  }

  /** The first call for a key returns while its process still has the copy to store. */
  lemma FirstCall(key: string, cfg: SourceConfig) returns (es: seq<Event>, t: State)
    requires cfg.eventCh == 0
    ensures es == [Put(key, cfg), Wait, Start] && Run(INIT, es, t)
    ensures var slot := Slot(cfg.kubeConfig, key);
            t == State(map[key := cfg], {slot}, map[slot := cfg], 1, Quiet)
  {
    es, t := [], INIT;
    t := RunThen(INIT, es, t, Put(key, cfg));
    es := es + [Put(key, cfg)];
    t := RunThen(INIT, es, t, Wait);
    es := es + [Wait];
    t := RunThen(INIT, es, t, Start);
    es := es + [Start];
    assert t.pending == map[Slot(cfg.kubeConfig, key) := cfg];
  }

  /** A second call for the key, with any configuration, finds its own replaced by the first one. */
  lemma SecondCall(before: seq<Event>, s: State, key: string, first: SourceConfig, second: SourceConfig)
    returns (es: seq<Event>, t: State)
    requires var slot := Slot(first.kubeConfig, key);
             Run(INIT, before, s) && s == State(map[key := first], {slot}, map[slot := first], 1, Quiet)
    requires second.eventCh == 1
    ensures es == before + [Put(key, second), Restore(Slot(first.kubeConfig, key)), Wait, Start]
    ensures Run(INIT, es, t) && t.phase.Quiet? && t.store == map[key := first]
  {
    var slot := Slot(first.kubeConfig, key);
    es, t := before, s;
    t := RunThen(INIT, es, t, Put(key, second));
    es := es + [Put(key, second)];
    t := RunThen(INIT, es, t, Restore(slot));
    es := es + [Restore(slot)];
    assert t.pending == map[] && t.store == map[key := first];
    t := RunThen(INIT, es, t, Wait);
    es := es + [Wait];
    t := RunThen(INIT, es, t, Start);
    es := es + [Start];
  }

  /**
   A second configuration for a key, stored before the process of the first one has come to store its copy, is lost, and
   with it the channel the second caller listens to, even if all settings are the same.
   */
  lemma NewerConfigurationIsLost(key: string, first: SourceConfig, second: SourceConfig)
    returns (es: seq<Event>, t: State)
    ensures var slot, a, b := Slot(first.kubeConfig, key), first.(eventCh := 0), second.(eventCh := 1);
            && es == [Put(key, a), Wait, Start, Put(key, b), Restore(slot), Wait, Start]
            && Run(INIT, es, t) && t.phase.Quiet? && t.store == map[key := a]
  {
    var a, b := first.(eventCh := 0), second.(eventCh := 1);
    var before, s := FirstCall(key, a);
    es, t := SecondCall(before, s, key, a, b);
  }
}
