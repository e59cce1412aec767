/**
 * Why the refresh bound counts entries called off and detours: a host that requests self-refresh and calls it
 * off again, over and over, or that asks for it again after every visit, keeps the engine from ever refreshing.
 */
module RefreshStarvation {
  import opened DdrBus
  import opened RefreshMonitor
  import opened ProtocolEngine
  import opened EngineInvariant
  import Bound = RefreshBound
  import Phy
  import Core

  /** Idle and awake. */
  predicate Resting(s: Registers) { s.state.Idle? && !s.selfRefresh && !s.powerDown && !s.selfRefreshOut }

  predicate Requests(i: Inputs) { !i.reset && i.ready && i.selfRefreshReq }

  predicate CallsOff(i: Inputs) { !i.reset && i.ready && i.selfRefreshExit }

  /** The engine and the monitor that has sampled its pins. */
  datatype Bench = Bench(engine: Registers, monitor: Monitor)

  function BenchStep(cfg: Config, limits: Limits, b: Bench, i: Inputs): Bench {
    var t := Step(cfg, b.engine, i);
    Bench(t, Observe(limits, b.monitor, true, Phy.EnginePins(t)))
  }

  /** The host alternates between requesting self-refresh and calling it off. */
  function Alternating(request: Inputs, off: Inputs, n: nat): Inputs { if n % 2 == 0 then request else off }

  /** The states of a run under these inputs. */
  predicate IsRun(cfg: Config, limits: Limits, request: Inputs, off: Inputs, trace: seq<Bench>) {
    forall n: nat {:trigger BenchStep(cfg, limits, trace[n], Alternating(request, off, n))} :: n + 1 < |trace| ==>
      trace[n + 1] == BenchStep(cfg, limits, trace[n], Alternating(request, off, n))
  }

  /** What n cycles with CKE high and no refresh do to the monitor. */
  function Counted(limits: Limits, m: Monitor, n: int): Monitor {
    m.(cycles := if m.cycles + n < limits.max * 4 then m.cycles + n else limits.max * 4)
  }

  lemma RequestEnters(cfg: Config, s: Registers, i: Inputs)
    requires Resting(s) && Requests(i)
    ensures var u := Step(cfg, s, i);
      u.state.SrefPre? && !u.selfRefresh && !u.powerDown && Phy.EnginePins(u).cke && u.bus == DESELECT
  {
    StepEdges(cfg, s, i);
  }

  /** Calling off the entry reloads the refresh counter, although nothing was refreshed. */
  lemma AbortRests(cfg: Config, u: Registers, j: Inputs)
    requires u.state.SrefPre? && !u.selfRefresh && !u.powerDown && CallsOff(j)
    ensures var v := Step(cfg, u, j);
      Resting(v) && v.refCnt == cfg.refreshInit && Phy.EnginePins(v).cke && v.bus == PRECHARGE
  {
    StepEdges(cfg, u, j);
  }

  lemma FirstHalf(cfg: Config, limits: Limits, request: Inputs, off: Inputs, trace: seq<Bench>, n: nat)
    requires IsRun(cfg, limits, request, off, trace) && n % 2 == 0 && n + 1 < |trace|
    requires Requests(request) && Resting(trace[n].engine) && 0 <= trace[n].monitor.cycles <= limits.max * 4
    ensures var u := trace[n + 1].engine; u.state.SrefPre? && !u.selfRefresh && !u.powerDown
    ensures trace[n + 1].monitor == Counted(limits, trace[n].monitor, 1)
  {
    assert trace[n + 1] == BenchStep(cfg, limits, trace[n], Alternating(request, off, n));
    RequestEnters(cfg, trace[n].engine, request);
  }

  lemma SecondHalf(cfg: Config, limits: Limits, request: Inputs, off: Inputs, trace: seq<Bench>, n: nat)
    requires IsRun(cfg, limits, request, off, trace) && n % 2 == 1 && n + 1 < |trace| && CallsOff(off)
    requires var u := trace[n].engine; u.state.SrefPre? && !u.selfRefresh && !u.powerDown
    requires 0 <= trace[n].monitor.cycles <= limits.max * 4
    ensures Resting(trace[n + 1].engine) && trace[n + 1].monitor == Counted(limits, trace[n].monitor, 1)
  {
    assert trace[n + 1] == BenchStep(cfg, limits, trace[n], Alternating(request, off, n));
    AbortRests(cfg, trace[n].engine, off);
  }

  lemma OneRound(cfg: Config, limits: Limits, request: Inputs, off: Inputs, trace: seq<Bench>, n: nat)
    requires IsRun(cfg, limits, request, off, trace) && n % 2 == 0 && n + 2 < |trace|
    requires Requests(request) && CallsOff(off)
    requires Resting(trace[n].engine) && 0 <= trace[n].monitor.cycles <= limits.max * 4
    ensures Resting(trace[n + 2].engine) && trace[n + 2].monitor == Counted(limits, trace[n].monitor, 2)
  {
    FirstHalf(cfg, limits, request, off, trace, n);
    SecondHalf(cfg, limits, request, off, trace, n + 1);
  }

  /** However long it goes on, no refresh is issued and the monitor keeps counting. */
  lemma {:induction false} RoundsCount(cfg: Config, limits: Limits, request: Inputs, off: Inputs, trace: seq<Bench>, k: nat)
    requires IsRun(cfg, limits, request, off, trace) && 2 * k < |trace| && Requests(request) && CallsOff(off)
    requires Resting(trace[0].engine) && 0 <= trace[0].monitor.cycles <= limits.max * 4
    ensures Resting(trace[2 * k].engine) && trace[2 * k].monitor == Counted(limits, trace[0].monitor, 2 * k)
  {
    if k > 0 {
      RoundsCount(cfg, limits, request, off, trace, k - 1);
      OneRound(cfg, limits, request, off, trace, 2 * (k - 1));
    }
  }

  /** The monitor has counted past the limit: whenever the next refresh comes, it is late. */
  predicate Overdue(limits: Limits, m: Monitor) { m.seen && m.cycles >= limits.max }

  /** The monitor of a ready device after these cycles. */
  function Watched(limits: Limits, m: Monitor, pins: seq<Pins>): Monitor {
    if pins == [] then m else Observe(limits, Watched(limits, m, pins[..|pins| - 1]), true, pins[|pins| - 1])
  }

  lemma {:induction false} OverdueStays(limits: Limits, m: Monitor, pins: seq<Pins>)
    requires Overdue(limits, m) && forall k :: 0 <= k < |pins| ==> !IsRefresh(pins[k])
    ensures Overdue(limits, Watched(limits, m, pins))
  {
    if pins != [] {
      OverdueStays(limits, m, pins[..|pins| - 1]);
    }
  }

  /** Half as many aborted requests as the limit has cycles are enough: whenever the next refresh comes, it is late. */
  lemma AbortsStarveRefresh(cfg: Config, limits: Limits, request: Inputs, off: Inputs, trace: seq<Bench>, k: nat,
                            pins: seq<Pins>, p: Pins)
    requires IsRun(cfg, limits, request, off, trace) && 2 * k < |trace| && Requests(request) && CallsOff(off)
    requires Resting(trace[0].engine) && 0 <= trace[0].monitor.cycles <= limits.max * 4
    requires trace[0].monitor.seen && 2 * k >= limits.max
    requires IsRefresh(p) && forall j :: 0 <= j < |pins| ==> !IsRefresh(pins[j])
    ensures TooLate(limits, Watched(limits, trace[2 * k].monitor, pins), true, p)
  {
    RoundsCount(cfg, limits, request, off, trace, k);
    OverdueStays(limits, trace[2 * k].monitor, pins);
  }

  // ---------------------------------------------------------------- detours

  /** The host asks for self-refresh whenever the engine is in IDLE and never calls an entry off. */
  predicate Insists(s: Registers, i: Inputs) {
    !i.reset && i.ready && (s.state.Idle? ==> i.selfRefreshReq) && !Aborts(s, i)
  }

  /** The states of a run of such a host. */
  predicate IsDetour(cfg: Config, limits: Limits, trace: seq<Bench>, inputs: seq<Inputs>) {
    && |trace| == |inputs| + 1
    && forall n: nat {:trigger BenchStep(cfg, limits, trace[n], inputs[n])} :: n < |inputs| ==>
      trace[n + 1] == BenchStep(cfg, limits, trace[n], inputs[n]) && Insists(trace[n].engine, inputs[n])
  }

  /** How often the run has left IDLE. */
  function Entries(trace: seq<Bench>, n: nat): nat
    requires n <= |trace|
  {
    if n == 0 then 0 else Entries(trace, n - 1) + if trace[n - 1].engine.state.Idle? then 1 else 0
  }

  /** Counted cycles of the current visit still to come. */
  function Remaining(cfg: Config, s: Registers): int { if s.state.Idle? then 0 else Bound.VisitTime(cfg, s) }

  /** In IDLE or on a visit; no refresh in sight. */
  predicate Visiting(cfg: Config, s: Registers) { Inv(cfg, s) && (s.state.Idle? || !Bound.Awake(s)) && (s.state.Idle? ==> !s.selfRefresh) }

  lemma VisitingMoves(cfg: Config, s: Registers, i: Inputs)
    requires cfg.Valid() && Visiting(cfg, s) && Insists(s, i)
    ensures var t := Step(cfg, s, i);
      && Visiting(cfg, t)
      && Bound.Tick(s, t) + Remaining(cfg, t) == Remaining(cfg, s) + if s.state.Idle? then Bound.Detour(cfg) else 0
  {
    StepKeepsInv(cfg, s, i);
    StepEdges(cfg, s, i);
    if !s.state.Idle? {
      Bound.VisitTimeFalls(cfg, s, i, Step(cfg, s, i));
    }
  }

  /** The monitor's count and what the current visit will still add to it, until the count is overdue. */
  predicate Balanced(cfg: Config, limits: Limits, b: Bench, count: int) {
    && Visiting(cfg, b.engine) && 0 <= b.monitor.cycles
    && (b.monitor.cycles >= limits.max || b.monitor.cycles + Remaining(cfg, b.engine) == count)
  }

  lemma StepBalances(cfg: Config, limits: Limits, b: Bench, i: Inputs, count: int)
    requires cfg.Valid() && Insists(b.engine, i) && Balanced(cfg, limits, b, count)
    ensures var n := BenchStep(cfg, limits, b, i);
      && n.monitor.seen == b.monitor.seen
      && Balanced(cfg, limits, n, count + if b.engine.state.Idle? then Bound.Detour(cfg) else 0)
  {
    VisitingMoves(cfg, b.engine, i);
    Bound.PinsCount(cfg, limits, b.monitor, b.engine, i);
  }

  /**
   * Each detour costs exactly `Detour` counted cycles, however often it is repeated, and no refresh is ever
   * started: the allowance made for detours in the refresh bound cannot be less.
   */
  lemma DetoursStarveRefresh(cfg: Config, limits: Limits, trace: seq<Bench>, inputs: seq<Inputs>, e: int, n: nat)
    requires cfg.Valid() && IsDetour(cfg, limits, trace, inputs) && n < |trace| && Balanced(cfg, limits, trace[0], e)
    ensures Balanced(cfg, limits, trace[n], e + Entries(trace, n) * Bound.Detour(cfg))
    ensures trace[n].monitor.seen == trace[0].monitor.seen
  {
    RunBalances(cfg, limits, trace, inputs, e, n);
    TotalIs(cfg, trace, e, n);
  }

  /** The count with the detours made so far. */
  function Total(cfg: Config, trace: seq<Bench>, e: int, n: nat): int
    requires n <= |trace|
  {
    if n == 0 then e else Total(cfg, trace, e, n - 1) + if trace[n - 1].engine.state.Idle? then Bound.Detour(cfg) else 0
  }

  lemma {:induction false} TotalIs(cfg: Config, trace: seq<Bench>, e: int, n: nat)
    requires n <= |trace|
    ensures Total(cfg, trace, e, n) == e + Entries(trace, n) * Bound.Detour(cfg)
  {
    if n > 0 {
      TotalIs(cfg, trace, e, n - 1);
      Distribute(Entries(trace, n - 1), if trace[n - 1].engine.state.Idle? then 1 else 0, Bound.Detour(cfg));
    }
  }

  lemma Distribute(x: int, y: int, z: int)
    ensures (x + y) * z == x * z + y * z
  {
  }

  lemma {:induction false} RunBalances(cfg: Config, limits: Limits, trace: seq<Bench>, inputs: seq<Inputs>, e: int, n: nat)
    requires cfg.Valid() && IsDetour(cfg, limits, trace, inputs) && n < |trace| && Balanced(cfg, limits, trace[0], e)
    ensures Balanced(cfg, limits, trace[n], Total(cfg, trace, e, n)) && trace[n].monitor.seen == trace[0].monitor.seen
  {
    if n > 0 {
      RunBalances(cfg, limits, trace, inputs, e, n - 1);
      NextBalances(cfg, limits, trace, inputs, e, n - 1);
    }
  }

  lemma NextBalances(cfg: Config, limits: Limits, trace: seq<Bench>, inputs: seq<Inputs>, e: int, n: nat)
    requires cfg.Valid() && IsDetour(cfg, limits, trace, inputs) && n < |inputs|
    requires Balanced(cfg, limits, trace[n], Total(cfg, trace, e, n))
    ensures trace[n + 1].monitor.seen == trace[n].monitor.seen
    ensures Balanced(cfg, limits, trace[n + 1], Total(cfg, trace, e, n + 1))
  {
    assert trace[n + 1] == BenchStep(cfg, limits, trace[n], inputs[n]);
    StepBalances(cfg, limits, trace[n], inputs[n], Total(cfg, trace, e, n));
  }

  /** With a threshold of zero there is no periodic refresh at all: no run ever reaches its first state. */
  lemma {:induction false} NoThresholdNoRefresh(cfg: Core.Config, start: Core.State, inputs: seq<Core.Inputs>)
    requires cfg.Valid() && cfg.engine.refreshUrgent == 0 && Core.IsReset(cfg, start)
    ensures NotRefreshing(Core.Run(cfg, start, inputs).engine)
  {
    if inputs != [] {
      var c := Core.Run(cfg, start, inputs[..|inputs| - 1]);
      var i := inputs[|inputs| - 1];
      NoThresholdNoRefresh(cfg, start, inputs[..|inputs| - 1]);
      Core.RunFits(cfg, start, inputs[..|inputs| - 1]);
      if !i.reset {
        StepEdges(cfg.engine, c.engine, Core.EngineInputs(c, i));
        EdgeStaysOut(cfg.engine, c.engine, Core.EngineInputs(c, i), Core.Step(cfg, c, i).engine);
      }
    }
  }

  predicate NotRefreshing(s: Registers) {
    !s.state.RPre? && !s.state.RNop? && !s.state.RRef? && !s.state.RIdl?
  }

  lemma EdgeStaysOut(cfg: Config, s: Registers, i: Inputs, t: Registers)
    requires CommandFits(s) && TimersFit(cfg, s) && cfg.refreshUrgent == 0 && NotRefreshing(s) && t.state == NextState(cfg, s, i)
    ensures NotRefreshing(t)
  {
  }
}
