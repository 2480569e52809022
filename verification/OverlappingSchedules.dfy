/**
 The scheduler's two loops at work at the same time: the start of all sources, and the monitor that opens the streams of
 a restarted plugin again. Asking whether a stream is started, opening it and reporting it as started are separate
 steps.
 */
module OverlappingSchedules {
  import opened Streams

  datatype Stream = Stream(plugin: string, key: string)

  datatype Loop = Starter | Monitor

  /**
   Where a loop stands. A stream is `taken` when the other loop has opened it, and `current` when it was opened here,
   and its plugin has not been restarted since.
   */
  datatype Phase =
    | Idle
    | Checked(stream: Stream, taken: bool)   // found not started
    | Opened(stream: Stream, current: bool)  // opened, not yet reported

  /** `filter` is the plugin the monitor is working for. */
  datatype State = State(started: set<Stream>, starter: Phase, monitor: Phase, filter: string, log: seq<StreamEvent>)
  {
    function Of(loop: Loop): Phase {
      match loop case Starter => starter case Monitor => monitor
    }

    function With(loop: Loop, phase: Phase): State {
      match loop case Starter => this.(starter := phase) case Monitor => this.(monitor := phase)
    }
  }

  datatype Step =
    | Check(loop: Loop, stream: Stream)
    | Dispatch(loop: Loop, ok: bool)
    | Report(loop: Loop)
    | Restart(plugin: string)            // the monitor forgets the streams of a restarted plugin

  const INIT := State({}, Idle, Idle, "", [])

  function Other(loop: Loop): Loop {
    match loop case Starter => Monitor case Monitor => Starter
  }

  predicate Enabled(s: State, step: Step) {
    match step
    case Check(loop, x) => s.Of(loop).Idle? && (loop.Monitor? ==> x.plugin == s.filter)
    case Dispatch(loop, _) => s.Of(loop).Checked?
    case Report(loop) => s.Of(loop).Opened?
    case Restart(_) => s.monitor.Idle?
  }

  function Taken(phase: Phase, x: Stream): Phase {
    if phase.Checked? && phase.stream == x then Checked(x, true) else phase
  }

  function Forgotten(phase: Phase, plugin: string): Phase {
    match phase
    case Checked(x, taken) => Checked(x, taken && x.plugin != plugin)
    case Opened(x, current) => Opened(x, current && x.plugin != plugin)
    case Idle => Idle
  }

  function Next(s: State, step: Step): State
    requires Enabled(s, step)
  {
    match step
    case Check(loop, x) =>
      if x in s.started then s else s.With(loop, Checked(x, s.Of(Other(loop)) == Opened(x, true)))
    case Dispatch(loop, ok) =>
      var x := s.Of(loop).stream;
      if !ok then s.With(loop, Idle)
      else
        var t := s.With(loop, Opened(x, true)).With(Other(loop), Taken(s.Of(Other(loop)), x));
        t.(log := s.log + [Dispatched(x.plugin, x.key)])
    case Report(loop) =>
      s.With(loop, Idle).(started := s.started + {s.Of(loop).stream})
    case Restart(plugin) =>
      State((set x | x in s.started && x.plugin != plugin), Forgotten(s.starter, plugin), Idle, plugin,
            s.log + [Restarted(plugin)])
  }

  ghost predicate Run(s: State, steps: seq<Step>, t: State)
    decreases |steps|
  {
    if steps == [] then s == t else Enabled(s, steps[0]) && Run(Next(s, steps[0]), steps[1..], t)
  }

  predicate IsOpen(s: State, x: Stream) {
    Open(s.log, x.plugin, x.key)
  }

  // ---- what every state keeps ------------------------------------------------------------

  ghost predicate PhaseInvariant(s: State, loop: Loop, x: Stream) {
    && (s.Of(loop).Checked? && s.Of(loop).stream == x ==> (s.Of(loop).taken <==> IsOpen(s, x)))
    && (s.Of(loop) == Opened(x, true) ==> IsOpen(s, x))
  }

  /** An open stream is in the table, or about to be reported. */
  ghost predicate Known(s: State, x: Stream) {
    IsOpen(s, x) ==> x in s.started || s.starter == Opened(x, true) || s.monitor == Opened(x, true)
  }

  ghost predicate Invariant(s: State) {
    forall x :: PhaseInvariant(s, Starter, x) && PhaseInvariant(s, Monitor, x) && Known(s, x)
  }

  lemma OpenAfter(s: State, step: Step, x: Stream)
    requires Enabled(s, step)
    ensures IsOpen(Next(s, step), x) <==>
      match step
      case Dispatch(loop, ok) => IsOpen(s, x) || (ok && s.Of(loop).stream == x)
      case Restart(plugin) => IsOpen(s, x) && x.plugin != plugin
      case _ => IsOpen(s, x)
  {
    match step
    case Dispatch(loop, ok) =>
      var d := s.Of(loop).stream;
      OpenNext(s.log, Dispatched(d.plugin, d.key), x.plugin, x.key);
    case Restart(plugin) => OpenNext(s.log, Restarted(plugin), x.plugin, x.key);
    case _ =>
  }

  lemma InvariantNext(s: State, step: Step)
    requires Invariant(s) && Enabled(s, step)
    ensures Invariant(Next(s, step))
  {
    forall x
      ensures PhaseInvariant(Next(s, step), Starter, x) && PhaseInvariant(Next(s, step), Monitor, x)
        && Known(Next(s, step), x)
    {
      assert PhaseInvariant(s, Starter, x) && PhaseInvariant(s, Monitor, x) && Known(s, x);
      OpenAfter(s, step, x);
    }
  }

  // ---- a stream opened twice ---------------------------------------------------------------

  /** A loop opens a stream that the other one has opened meanwhile. */
  predicate Collides(s: State, step: Step) {
    step.Dispatch? && step.ok && s.Of(step.loop).Checked? && s.Of(step.loop).taken
  }

  predicate NeverCollides(s: State, steps: seq<Step>)
    decreases |steps|
  {
    || steps == []
    || (Enabled(s, steps[0]) && !Collides(s, steps[0]) && NeverCollides(Next(s, steps[0]), steps[1..]))
  }

  lemma TwiceNext(s: State, step: Step)
    requires Invariant(s) && Enabled(s, step)
    ensures NeverTwice(Next(s, step).log) <==> NeverTwice(s.log) && !Collides(s, step)
  {
    if Next(s, step).log != s.log {
      var e := Next(s, step).log[|s.log|];
      assert Next(s, step).log == s.log + [e];
      TwiceIff(s.log, e);
      if step.Dispatch? {
        assert PhaseInvariant(s, step.loop, s.Of(step.loop).stream);
      }
    }
  }

  lemma TwiceIff(log: seq<StreamEvent>, e: StreamEvent)
    ensures NeverTwice(log + [e]) <==> NeverTwice(log) && (e.Dispatched? ==> !Open(log, e.plugin, e.key))
  {
    var next := log + [e];
    assert next[..|log|] == log && next[|log|] == e;
    forall i | 0 <= i < |log| ensures next[..i] == log[..i] && next[i] == log[i] {
    }
    if NeverTwice(next) {
      forall i | 0 <= i < |log| && log[i].Dispatched? ensures !Open(log[..i], log[i].plugin, log[i].key) {
        assert next[i].Dispatched? && !Open(next[..i], next[i].plugin, next[i].key);
      }
    } else if NeverTwice(log) && (e.Dispatched? ==> !Open(log, e.plugin, e.key)) {
      NeverTwiceNext(log, e);
    }
  }

  lemma {:induction false} TwiceInRun(s: State, steps: seq<Step>, t: State)
    requires Run(s, steps, t) && Invariant(s)
    ensures NeverTwice(t.log) <==> NeverTwice(s.log) && NeverCollides(s, steps)
    decreases |steps|
  {
    if steps != [] {
      InvariantNext(s, steps[0]);
      TwiceNext(s, steps[0]);
      TwiceInRun(Next(s, steps[0]), steps[1..], t);
    }
  }

  /**
   In every run no stream is opened twice between restarts of its plugin if and only if no loop opens a stream that the
   other one has opened since it asked, or was just about to report.
   */
  lemma OpenedTwiceIff(steps: seq<Step>, t: State)
    requires Run(INIT, steps, t)
    ensures NeverTwice(t.log) <==> NeverCollides(INIT, steps)
  {
    TwiceInRun(INIT, steps, t);
  }

  // ---- a stream that stays closed ------------------------------------------------------------

  /** Every stream in the table is open. */
  ghost predicate Accurate(s: State) {
    forall x | x in s.started :: IsOpen(s, x)
  }

  ghost predicate StaysAccurate(s: State, steps: seq<Step>)
    decreases |steps|
  {
    Accurate(s) && (steps == [] || (Enabled(s, steps[0]) && StaysAccurate(Next(s, steps[0]), steps[1..])))
  }

  /** A loop reports a stream that it opened before its plugin was restarted and that nobody has opened since. */
  predicate ReportsClosed(s: State, step: Step) {
    step.Report? && s.Of(step.loop).Opened? && !s.Of(step.loop).current && !IsOpen(s, s.Of(step.loop).stream)
  }

  predicate NeverReportsClosed(s: State, steps: seq<Step>)
    decreases |steps|
  {
    || steps == []
    || (Enabled(s, steps[0]) && !ReportsClosed(s, steps[0]) && NeverReportsClosed(Next(s, steps[0]), steps[1..]))
  }

  lemma AccurateNext(s: State, step: Step)
    requires Invariant(s) && Accurate(s) && Enabled(s, step)
    ensures Accurate(Next(s, step)) <==> !ReportsClosed(s, step)
  {
    forall x { OpenAfter(s, step, x); }
    if step.Report? {
      assert PhaseInvariant(s, step.loop, s.Of(step.loop).stream);
      assert s.Of(step.loop).stream in Next(s, step).started;
    }
  }

  lemma {:induction false} AccurateInRun(s: State, steps: seq<Step>, t: State)
    requires Run(s, steps, t) && Invariant(s) && Accurate(s)
    ensures StaysAccurate(s, steps) <==> NeverReportsClosed(s, steps)
    decreases |steps|
  {
    if steps != [] {
      InvariantNext(s, steps[0]);
      AccurateNext(s, steps[0]);
      if Accurate(Next(s, steps[0])) {
        AccurateInRun(Next(s, steps[0]), steps[1..], t);
      }
    }
  }

  /**
   In every run the table never has a closed stream if and only if no loop reports a stream that it opened before its
   plugin was restarted and that nobody has opened since.
   */
  lemma TableIsAccurateIff(steps: seq<Step>, t: State)
    requires Run(INIT, steps, t)
    ensures StaysAccurate(INIT, steps) <==> NeverReportsClosed(INIT, steps)
  {
    AccurateInRun(INIT, steps, t);
  }

  /** The stream is in the table, closed, and no loop is about to open it. */
  predicate Lost(s: State, x: Stream) {
    && x in s.started && !IsOpen(s, x)
    && !(s.starter.Checked? && s.starter.stream == x) && !(s.monitor.Checked? && s.monitor.stream == x)
  }

  lemma LostNext(s: State, step: Step, x: Stream)
    requires Lost(s, x) && Enabled(s, step) && step != Restart(x.plugin)
    ensures Lost(Next(s, step), x)
  {
    OpenAfter(s, step, x);
  }

  /** A lost stream stays closed until its plugin is restarted once more. */
  lemma {:induction false} LostUntilRestart(s: State, steps: seq<Step>, t: State, x: Stream)
    requires Run(s, steps, t) && Lost(s, x) && Restart(x.plugin) !in steps
    ensures Lost(t, x)
    decreases |steps|
  {
    if steps != [] {
      assert steps[0] in steps && forall step | step in steps[1..] :: step in steps;
      LostNext(s, steps[0], x);
      LostUntilRestart(Next(s, steps[0]), steps[1..], t, x);
    }
  }

  // ---- loops that take turns -----------------------------------------------------------------

  /** Each loop starts with a stream or a restart only when the other one is not in the middle of a stream. */
  predicate TakesTurn(s: State, step: Step) {
    match step
    case Check(loop, _) => s.Of(Other(loop)).Idle?
    case Restart(_) => s.starter.Idle?
    case _ => true
  }

  predicate TakeTurns(s: State, steps: seq<Step>)
    decreases |steps|
  {
    || steps == []
    || (Enabled(s, steps[0]) && TakesTurn(s, steps[0]) && TakeTurns(Next(s, steps[0]), steps[1..]))
  }

  predicate OneAtWork(s: State) {
    && (s.starter.Idle? || s.monitor.Idle?)
    && forall loop ::
         (s.Of(loop).Checked? ==> !s.Of(loop).taken) && (s.Of(loop).Opened? ==> s.Of(loop).current)
  }

  lemma {:induction false} TurnsInRun(s: State, steps: seq<Step>, t: State)
    requires Run(s, steps, t) && TakeTurns(s, steps)
    requires Invariant(s) && Accurate(s) && OneAtWork(s) && NeverTwice(s.log)
    ensures Invariant(t) && Accurate(t) && NeverTwice(t.log)
    decreases |steps|
  {
    if steps != [] {
      InvariantNext(s, steps[0]);
      TwiceNext(s, steps[0]);
      AccurateNext(s, steps[0]);
      OneAtWorkNext(s, steps[0]);
      TurnsInRun(Next(s, steps[0]), steps[1..], t);
    }
  }

  /** When the loops take turns, no stream is opened twice, and the table has the open streams between two streams. */
  lemma TurnsAreSafe(steps: seq<Step>, t: State, x: Stream)
    requires Run(INIT, steps, t) && TakeTurns(INIT, steps)
    ensures NeverTwice(t.log)
    ensures t.starter.Idle? && t.monitor.Idle? ==> (x in t.started <==> IsOpen(t, x))
  {
    TurnsInRun(INIT, steps, t);
    assert Known(t, x);
  }

  lemma OneAtWorkNext(s: State, step: Step)
    requires OneAtWork(s) && Enabled(s, step) && TakesTurn(s, step)
    ensures OneAtWork(Next(s, step)) && !Collides(s, step) && !ReportsClosed(s, step)
  {
    assert s.Of(Starter) == s.starter && s.Of(Monitor) == s.monitor;
  }

  // ---- two runs that go wrong ------------------------------------------------------------------

  lemma {:induction false} RunThen(s: State, steps: seq<Step>, t: State, step: Step) returns (u: State)
    requires Run(s, steps, t) && Enabled(t, step)
    ensures Run(s, steps + [step], u) && u == Next(t, step)
    decreases |steps|
  {
    if steps == [] {
      assert [step][1..] == [];
      u := Next(t, step);
    } else {
      u := RunThen(Next(s, steps[0]), steps[1..], t, step);
      assert (steps + [step])[1..] == steps[1..] + [step];
    }
  }

  /** A plugin restarted while the sources are started gets a stream twice. */
  lemma OpenedTwice(x: Stream) returns (steps: seq<Step>, t: State)
    ensures steps ==
      [Restart(x.plugin), Check(Starter, x), Check(Monitor, x), Dispatch(Starter, true), Dispatch(Monitor, true)]
    ensures Run(INIT, steps, t)
    ensures t.log == [Restarted(x.plugin), Dispatched(x.plugin, x.key), Dispatched(x.plugin, x.key)]
    ensures !NeverTwice(t.log)
  {
    steps, t := [], INIT;
    t := RunThen(INIT, steps, t, Restart(x.plugin));
    steps := steps + [Restart(x.plugin)];
    t := RunThen(INIT, steps, t, Check(Starter, x));
    steps := steps + [Check(Starter, x)];
    t := RunThen(INIT, steps, t, Check(Monitor, x));
    steps := steps + [Check(Monitor, x)];
    t := RunThen(INIT, steps, t, Dispatch(Starter, true));
    steps := steps + [Dispatch(Starter, true)];
    t := RunThen(INIT, steps, t, Dispatch(Monitor, true));
    steps := steps + [Dispatch(Monitor, true)];
    assert t.log[..2] == [Restarted(x.plugin), Dispatched(x.plugin, x.key)];
    OpenNext([Restarted(x.plugin)], Dispatched(x.plugin, x.key), x.plugin, x.key);
  }

  /** A stream opened just before its plugin is restarted and reported just after is not opened again. */
  lemma StreamLost(x: Stream) returns (steps: seq<Step>, t: State)
    ensures steps ==
      [Check(Starter, x), Dispatch(Starter, true), Restart(x.plugin), Report(Starter), Check(Monitor, x)]
    ensures Run(INIT, steps, t) && t.starter.Idle? && t.monitor.Idle? && Lost(t, x)
  {
    steps, t := [], INIT;
    t := RunThen(INIT, steps, t, Check(Starter, x));
    steps := steps + [Check(Starter, x)];
    t := RunThen(INIT, steps, t, Dispatch(Starter, true));
    steps := steps + [Dispatch(Starter, true)];
    OpenAfter(t, Restart(x.plugin), x);
    t := RunThen(INIT, steps, t, Restart(x.plugin));
    steps := steps + [Restart(x.plugin)];
    t := RunThen(INIT, steps, t, Report(Starter));
    steps := steps + [Report(Starter)];
    t := RunThen(INIT, steps, t, Check(Monitor, x));
    steps := steps + [Check(Monitor, x)];
  }
}
