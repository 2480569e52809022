/**
 The heartbeat loop while events keep arriving: copying the counters, encoding them, sending them, and clearing
 them afterwards are separate steps. The copy shares the map of sources until the counters are cleared.
 */
module Heartbeat {
  import opened Analytics

  datatype Phase =
    | Idle
    | Copied(count: int, window: int, final: bool)
    | Encoded(report: HeartbeatProperties, size: nat, final: bool)
    | Sent(size: nat, final: bool)
    | Failed(final: bool)
    | Stopped(size: nat)
  {
    /** How many of the events added since the last reset have been delivered. */
    function Done(): nat {
      if Sent? || Stopped? then size else 0
    }
  }

  /**
   The counters and the phase of the loop, and what has happened: `added` since the last reset, the rest since the
   start.
   */
  datatype State = State(defaultWindow: int, props: HeartbeatProperties, phase: Phase,
                         added: seq<SourceEvent>, failures: nat, all: seq<SourceEvent>,
                         sent: seq<HeartbeatProperties>, delivered: seq<SourceEvent>, lost: seq<SourceEvent>)
  {
    predicate WellFormed() { phase.Done() <= |added| && (phase.Encoded? ==> phase.size <= |added|) }

    function Undelivered(): seq<SourceEvent>
      requires WellFormed()
    {
      added[phase.Done()..]
    }
  }

  datatype Step = Add(event: SourceEvent) | Copy(final: bool) | Encode(ok: bool) | Enqueue(ok: bool) | Settle

  function Init(defaultWindow: int): State {
    State(defaultWindow, Fresh(defaultWindow), Idle, [], 0, [], [], [], [])
  }

  predicate Enabled(s: State, step: Step) {
    match step
    case Add(_) => true
    case Copy(_) => s.phase.Idle?
    case Encode(_) => s.phase.Copied?
    case Enqueue(_) => s.phase.Encoded?
    case Settle => s.phase.Sent? || s.phase.Failed?
  }

  /** A report clears the counters when it was sent in the middle of a run. */
  predicate Resets(s: State, step: Step) {
    step.Settle? && s.phase.Sent? && !s.phase.final
  }

  function Settled(s: State): State
    requires s.WellFormed() && Enabled(s, Settle)
  {
    if s.phase.final then s.(phase := Stopped(s.phase.Done()))
    else if s.phase.Sent? then
      s.(props := Fresh(s.defaultWindow), phase := Idle, added := [], failures := 0, lost := s.lost + s.Undelivered())
    else
      s.(props := s.props.(timeWindowInHours := s.props.timeWindowInHours + 1), phase := Idle,
         failures := s.failures + 1)
  }

  function Next(s: State, step: Step): State
    requires s.WellFormed() && Enabled(s, step)
  {
    match step
    case Add(e) => s.(props := Added(s.props, e), added := s.added + [e], all := s.all + [e])
    case Copy(final) => s.(phase := Copied(s.props.eventsCount, s.props.timeWindowInHours, final))
    case Encode(ok) =>
      if ok then s.(phase := Encoded(HeartbeatProperties(s.phase.window, s.phase.count, s.props.sources), |s.added|,
                                     s.phase.final))
      else s.(phase := Failed(s.phase.final))
    case Enqueue(ok) =>
      if ok then
        s.(phase := Sent(s.phase.size, s.phase.final), sent := s.sent + [s.phase.report],
           delivered := s.delivered + s.added[..s.phase.size])
      else s.(phase := Failed(s.phase.final))
    case Settle => Settled(s)
  }

  // ---- the invariant ---------------------------------------------------------------

  ghost predicate Counted(s: State) {
    && s.props.timeWindowInHours == s.defaultWindow + s.failures
    && s.props.eventsCount == |s.added|
    && Summarises(s.props.sources, s.added)
  }

  /** A report keeps the details of at most 75 events and never counts more events than its sources do. */
  ghost predicate Plausible(report: HeartbeatProperties) {
    TotalDetails(report.sources) <= MAX_EVENT_DETAILS_COUNT && report.eventsCount <= TotalCount(report.sources)
  }

  ghost predicate InFlight(s: State) {
    match s.phase
    case Copied(count, window, _) => count <= |s.added| && window == s.defaultWindow + s.failures
    case Encoded(report, size, _) =>
      && size <= |s.added| && Summarises(report.sources, s.added[..size])
      && report.eventsCount <= size && report.timeWindowInHours == s.defaultWindow + s.failures
    case Sent(size, _) => size <= |s.added|
    case Stopped(size) => size <= |s.added|
    case _ => true
  }

  /** Every event was delivered, was lost, or is still waiting. */
  ghost predicate Conserved(s: State)
    requires s.WellFormed()
  {
    multiset(s.all) == multiset(s.delivered) + multiset(s.lost) + multiset(s.Undelivered())
  }

  ghost predicate Invariant(s: State) {
    && s.WellFormed() && Counted(s) && InFlight(s) && Conserved(s)
    && forall r | r in s.sent :: Plausible(r)
  }

  lemma CountedNext(s: State, step: Step)
    requires s.WellFormed() && Counted(s) && Enabled(s, step)
    ensures Counted(Next(s, step))
  {
    if step.Add? {
      SummaryNext(s.props, s.added, step.event);
    }
  }

  lemma InFlightNext(s: State, step: Step)
    requires s.WellFormed() && Counted(s) && InFlight(s) && Enabled(s, step)
    ensures InFlight(Next(s, step)) && Next(s, step).WellFormed()
  {
    if step.Add? && s.phase.Encoded? {
      assert (s.added + [step.event])[..s.phase.size] == s.added[..s.phase.size];
    }
    if step.Encode? {
      assert s.added[..|s.added|] == s.added;
    }
  }

  lemma ConservedNext(s: State, step: Step)
    requires s.WellFormed() && Conserved(s) && Enabled(s, step) && Next(s, step).WellFormed()
    ensures Conserved(Next(s, step))
  {
    match step {
      case Add(e) => AddConserves(s.added, s.phase.Done(), e);
      case Enqueue(ok) => assert s.added == s.added[..s.phase.size] + s.added[s.phase.size..]
        && s.added[0..] == s.added;
      case Settle => SettleConserves(s);
      case _ =>
    }
  }

  lemma AddConserves(added: seq<SourceEvent>, done: nat, e: SourceEvent)
    requires done <= |added|
    ensures multiset((added + [e])[done..]) == multiset(added[done..]) + multiset{e}
  {
    assert (added + [e])[done..] == added[done..] + [e];
  }

  lemma SettleConserves(s: State)
    requires s.WellFormed() && Conserved(s) && Enabled(s, Settle)
    ensures Settled(s).WellFormed() && Conserved(Settled(s))
  {
    if Resets(s, Settle) {
      assert multiset(Settled(s).lost) == multiset(s.lost) + multiset(s.Undelivered());
      assert Settled(s).Undelivered() == [];
    } else {
      assert Settled(s).Undelivered() == s.Undelivered();
    }
  }

  lemma SentNext(s: State, step: Step)
    requires s.WellFormed() && InFlight(s) && Enabled(s, step) && forall r | r in s.sent :: Plausible(r)
    ensures forall r | r in Next(s, step).sent :: Plausible(r)
  {
    if step.Enqueue? {
      NothingLostByCounting(s.phase.report.sources, s.added[..s.phase.size]);
    }
  }

  lemma InvariantNext(s: State, step: Step)
    requires Invariant(s) && Enabled(s, step)
    ensures Invariant(Next(s, step))
  {
    CountedNext(s, step);
    InFlightNext(s, step);
    ConservedNext(s, step);
    SentNext(s, step);
  }

  // ---- runs ------------------------------------------------------------------------

  /** The state the steps lead to, if they can be taken one after the other. */
  ghost predicate Leads(window: int, steps: seq<Step>, s: State) {
    if steps == [] then s == Init(window)
    else
      exists before :: Leads(window, steps[..|steps| - 1], before) && before.WellFormed()
        && Enabled(before, steps[|steps| - 1]) && s == Next(before, steps[|steps| - 1])
  }

  /** In every run the counters, the report in flight and the history agree. */
  lemma {:induction false} RunsKeepInvariant(window: int, steps: seq<Step>, s: State)
    requires Leads(window, steps, s)
    ensures Invariant(s)
    decreases |steps|
  {
    if steps != [] {
      var before :| Leads(window, steps[..|steps| - 1], before) && before.WellFormed()
        && Enabled(before, steps[|steps| - 1]) && s == Next(before, steps[|steps| - 1]);
      RunsKeepInvariant(window, steps[..|steps| - 1], before);
      InvariantNext(before, steps[|steps| - 1]);
    }
  }

  // ---- the window ------------------------------------------------------------------------

  /** The last step of the loop, leaving out events that arrive. */
  function LastOfLoop(steps: seq<Step>): Step {
    if steps == [] then Settle
    else if steps[|steps| - 1].Add? then LastOfLoop(steps[..|steps| - 1])
    else steps[|steps| - 1]
  }

  /** The heartbeat under way is the last one of the agent. */
  predicate IsFinal(steps: seq<Step>) {
    if steps == [] then false
    else if steps[|steps| - 1].Copy? then steps[|steps| - 1].final
    else IsFinal(steps[..|steps| - 1])
  }

  /** How many heartbeats have failed since the last one was sent, while the agent goes on. */
  function FailedTicks(steps: seq<Step>): nat {
    if steps == [] then 0
    else
      var init := steps[..|steps| - 1];
      if !steps[|steps| - 1].Settle? || IsFinal(init) then FailedTicks(init)
      else if LastOfLoop(init) == Enqueue(true) then 0
      else FailedTicks(init) + 1
  }

  lemma {:induction false} PhaseOfLoop(window: int, steps: seq<Step>, s: State)
    requires Leads(window, steps, s)
    ensures s.phase.Sent? <==> LastOfLoop(steps) == Enqueue(true)
    ensures s.phase.Failed? <==> LastOfLoop(steps) == Encode(false) || LastOfLoop(steps) == Enqueue(false)
    ensures s.phase.Copied? || s.phase.Encoded? || s.phase.Sent? || s.phase.Failed? ==>
      s.phase.final == IsFinal(steps)
    decreases |steps|
  {
    if steps != [] {
      var init, last := steps[..|steps| - 1], steps[|steps| - 1];
      var before :| Leads(window, init, before) && before.WellFormed() && Enabled(before, last)
        && s == Next(before, last);
      PhaseOfLoop(window, init, before);
    }
  }

  /** The window reported is the default plus one hour for every heartbeat that failed since the last one was sent. */
  lemma {:induction false} WindowCountsFailures(window: int, steps: seq<Step>, s: State)
    requires Leads(window, steps, s)
    ensures s.props.timeWindowInHours == window + FailedTicks(steps)
    decreases |steps|
  {
    if steps != [] {
      var init, last := steps[..|steps| - 1], steps[|steps| - 1];
      var before :| Leads(window, init, before) && before.WellFormed() && Enabled(before, last)
        && s == Next(before, last);
      WindowCountsFailures(window, init, before);
      PhaseOfLoop(window, init, before);
      DefaultWindow(window, init, before);
    }
  }

  lemma {:induction false} DefaultWindow(window: int, steps: seq<Step>, s: State)
    requires Leads(window, steps, s)
    ensures s.defaultWindow == window
    decreases |steps|
  {
    if steps != [] {
      var init, last := steps[..|steps| - 1], steps[|steps| - 1];
      var before :| Leads(window, init, before) && before.WellFormed() && Enabled(before, last)
        && s == Next(before, last);
      DefaultWindow(window, init, before);
    }
  }

  // ---- which events are missed -------------------------------------------------------------

  datatype Mark = AtCopy | AtEncode {
    predicate Is(step: Step) {
      match this
      case AtCopy => step.Copy?
      case AtEncode => step.Encode?
    }
  }

  /** An event arrived after the last step of this kind. */
  predicate AddSince(steps: seq<Step>, mark: Mark) {
    if steps == [] then false
    else
      var last := steps[|steps| - 1];
      !mark.Is(last) && (last.Add? || AddSince(steps[..|steps| - 1], mark))
  }

  /** While a copy or a report is in flight, it misses events exactly when some arrived since it was made. */
  lemma {:induction false} MissesIff(window: int, steps: seq<Step>, s: State)
    requires Leads(window, steps, s)
    ensures s.phase.Copied? ==> (s.phase.count < |s.added| <==> AddSince(steps, AtCopy))
    ensures s.phase.Encoded? || s.phase.Sent? ==> (s.phase.size < |s.added| <==> AddSince(steps, AtEncode))
    decreases |steps|
  {
    if steps != [] {
      var init, last := steps[..|steps| - 1], steps[|steps| - 1];
      var before :| Leads(window, init, before) && before.WellFormed() && Enabled(before, last)
        && s == Next(before, last);
      MissesIff(window, init, before);
      RunsKeepInvariant(window, init, before);
    }
  }

  /**
   The number of events in a report is the sum of its sources' counts exactly when none arrived between copying and
   encoding.
   */
  lemma ReportAddsUpIff(window: int, steps: seq<Step>, s: State)
    requires Leads(window, steps, s) && s.phase.Copied?
    ensures var report := Next(s, Encode(true)).phase.report; report.eventsCount == TotalCount(report.sources) <==>
      !AddSince(steps, AtCopy)
  {
    RunsKeepInvariant(window, steps, s);
    MissesIff(window, steps, s);
    NothingLostByCounting(s.props.sources, s.added);
  }

  /** The run clears the counters at a moment when events have arrived since the report was encoded. */
  ghost predicate ClearsUnreported(window: int, steps: seq<Step>) {
    exists k, s | 0 <= k < |steps| && Leads(window, steps[..k], s) ::
      Resets(s, steps[k]) && AddSince(steps[..k], AtEncode)
  }

  lemma {:induction false} LeadsUnique(window: int, steps: seq<Step>, s: State, t: State)
    requires Leads(window, steps, s) && Leads(window, steps, t)
    ensures s == t
    decreases |steps|
  {
    if steps != [] {
      var init, last := steps[..|steps| - 1], steps[|steps| - 1];
      var a :| Leads(window, init, a) && a.WellFormed() && Enabled(a, last) && s == Next(a, last);
      var b :| Leads(window, init, b) && b.WellFormed() && Enabled(b, last) && t == Next(b, last);
      LeadsUnique(window, init, a, b);
    }
  }

  lemma ClearsUnreportedNext(window: int, steps: seq<Step>, before: State)
    requires steps != [] && Leads(window, steps[..|steps| - 1], before)
    ensures ClearsUnreported(window, steps) <==>
      || ClearsUnreported(window, steps[..|steps| - 1])
      || (Resets(before, steps[|steps| - 1]) && AddSince(steps[..|steps| - 1], AtEncode))
  {
    var init, last := steps[..|steps| - 1], steps[|steps| - 1];
    if ClearsUnreported(window, steps) {
      var k, s :| 0 <= k < |steps| && Leads(window, steps[..k], s) && Resets(s, steps[k])
        && AddSince(steps[..k], AtEncode);
      if k < |init| {
        assert init[..k] == steps[..k];
      } else {
        LeadsUnique(window, init, s, before);
      }
    }
    if ClearsUnreported(window, init) {
      var k, s :| 0 <= k < |init| && Leads(window, init[..k], s) && Resets(s, init[k]) && AddSince(init[..k], AtEncode);
      assert init[..k] == steps[..k];
    }
  }

  /** Events are lost exactly when some arrive between encoding a report and clearing the counters after it was sent. */
  lemma {:induction false} LostIff(window: int, steps: seq<Step>, s: State)
    requires Leads(window, steps, s)
    ensures s.lost != [] <==> ClearsUnreported(window, steps)
    decreases |steps|
  {
    if steps != [] {
      var init, last := steps[..|steps| - 1], steps[|steps| - 1];
      var before :| Leads(window, init, before) && before.WellFormed() && Enabled(before, last)
        && s == Next(before, last);
      LostIff(window, init, before);
      ClearsUnreportedNext(window, steps, before);
      MissesIff(window, init, before);
    }
  }

  /** Without such an overlap every event was delivered exactly once or is still waiting. */
  lemma DeliveredOrWaiting(window: int, steps: seq<Step>, s: State)
    requires Leads(window, steps, s) && !ClearsUnreported(window, steps)
    ensures s.WellFormed() && multiset(s.all) == multiset(s.delivered) + multiset(s.Undelivered())
  {
    RunsKeepInvariant(window, steps, s);
    LostIff(window, steps, s);
  }

  // ---- two runs that go wrong ------------------------------------------------------------

  lemma LeadsNext(window: int, steps: seq<Step>, s: State, step: Step) returns (t: State)
    requires Leads(window, steps, s) && Enabled(s, step)
    ensures Leads(window, steps + [step], t) && s.WellFormed() && t == Next(s, step)
  {
    RunsKeepInvariant(window, steps, s);
    t := Next(s, step);
    assert (steps + [step])[..|steps|] == steps;
  }

  /** An event that arrives while the encoded report is sent is lost. */
  lemma LostEvent(window: int, e: SourceEvent) returns (steps: seq<Step>, s: State)
    ensures Leads(window, steps, s) && s.all == [e] && s.lost == [e] && s.delivered == [] && s.added == []
  {
    steps, s := [], Init(window);
    s := LeadsNext(window, steps, s, Copy(false));
    steps := steps + [Copy(false)];
    s := LeadsNext(window, steps, s, Encode(true));
    steps := steps + [Encode(true)];
    s := LeadsNext(window, steps, s, Add(e));
    steps := steps + [Add(e)];
    s := LeadsNext(window, steps, s, Enqueue(true));
    steps := steps + [Enqueue(true)];
    s := LeadsNext(window, steps, s, Settle);
    steps := steps + [Settle];
  }

  /** An event that arrives between copying and encoding is in the sources of the report but not in its total. */
  lemma ReportDoesNotAddUp(window: int, e: SourceEvent) returns (steps: seq<Step>, s: State)
    ensures Leads(window, steps, s) && s.phase.Encoded?
    ensures s.phase.report.eventsCount == 0 && TotalCount(s.phase.report.sources) == 1
  {
    steps, s := [], Init(window);
    s := LeadsNext(window, steps, s, Copy(false));
    steps := steps + [Copy(false)];
    s := LeadsNext(window, steps, s, Add(e));
    steps := steps + [Add(e)];
    NothingLostByCounting(s.props.sources, s.added) by {
      RunsKeepInvariant(window, steps, s);
    }
    s := LeadsNext(window, steps, s, Encode(true));
    steps := steps + [Encode(true)];
  }
}
