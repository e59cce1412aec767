/**
 * Bus turnaround is safe for every command stream: reserved codes, dropped commands and any read
 * latency included.
 */
module TurnaroundSafety {
  import opened DdrBus
  import opened TurnaroundChecker
  import opened ProtocolEngine
  import opened EngineInvariant
  import Timing = TimingSafety
  import Runs = TimingRuns
  import Init = InitEngine
  import Phy
  import Core

  // ---------------------------------------------------------------- true ages

  /** Cycles since the last READ, at the least. A block read is back in IDLE after three. */
  function ReadAge(s: Registers): int {
    match s.state
    case ScRead => 1
    case ScrEnd => 2
    case BlrRead => 1
    case ScrNlsn => 2
    case Idle => 3
    case GetCmd => 6 - s.cnt
    case Activate => 8 - s.cnt
    case BlrAct => 8
    case BlwAct => 8
    case WaitTrcd => 8
    case IssueWrite => 8
    case ScWrite => 8
    case ScwrData => 8
    case ScwrEnd => 8
    case BlwIssue => 8
    case BlwWrite => 8
    case IssueRead => 8
    case BlrIssue => 8
    case _ => 4
  }

  /** Cycles since the last WRITE, at the least. */
  function WriteAge(s: Registers): int {
    match s.state
    case ScWrite => 13 - s.cnt
    case BlwWrite => 13 - s.cnt
    case _ => 14
  }

  /** The command never happened, or it is at least `age` cycles old. */
  predicate Aged(cycle: int, last: int, age: int) { last == NEVER || 0 <= last <= cycle - age }

  predicate Settled(s: Registers, m: Monitor) {
    && m.Valid()
    && Aged(m.cycle, m.lastRead, ReadAge(s)) && Aged(m.cycle, m.lastWrite, WriteAge(s))
    && forall b :: 0 <= b < 4 ==>
      Aged(m.cycle, m.bankRead[b], ReadAge(s)) && Aged(m.cycle, m.bankWrite[b], WriteAge(s))
  }

  lemma ReadAgeGrows(cfg: Config, s: Registers, i: Inputs, t: Registers)
    requires cfg.Valid() && CommandFits(s) && CountFits(cfg, s) && FlowEdge(cfg, s, i, t)
    ensures ReadAge(t) <= if Timing.CommandOf(s.state) == CmdRead then 1 else ReadAge(s) + 1
  {
  }

  lemma WriteAgeGrows(cfg: Config, s: Registers, i: Inputs, t: Registers)
    requires cfg.Valid() && CommandFits(s) && CountFits(cfg, s) && FlowEdge(cfg, s, i, t)
    ensures WriteAge(t) <= if Timing.CommandOf(s.state) == CmdWrite then 1 else WriteAge(s) + 1
  {
  }

  lemma EdgeSettles(cfg: Config, s: Registers, i: Inputs, t: Registers, m: Monitor, p: Pins)
    requires cfg.Valid() && CommandFits(s) && CountFits(cfg, s) && FlowEdge(cfg, s, i, t)
    requires Settled(s, m) && Decode(p) == Timing.CommandOf(s.state) && m.cycle >= 0
    ensures Settled(t, Observe(m, p))
  {
    ReadAgeGrows(cfg, s, i, t);
    WriteAgeGrows(cfg, s, i, t);
  }

  // ---------------------------------------------------------------- the rules

  /** Stamps 2^31 cycles or more apart look recent to a 32-bit difference. */
  predicate Wrapped(cycle: int, last: int, min: int) {
    last != NEVER && cycle - last >= INTEGER_HALF && LooksRecent(cycle, last, min)
  }

  predicate StampsWrapped(m: Monitor, p: Pins)
    requires m.Valid()
  {
    match Decode(p)
    case CmdWrite => Wrapped(m.cycle, m.lastRead, TRTW_MIN)
    case CmdRead => Wrapped(m.cycle, m.lastWrite, TWTR_MIN)
    case CmdPre => Wrapped(m.cycle, m.bankWrite[p.ba], TWR_MIN) || Wrapped(m.cycle, m.bankRead[p.ba], TRTP_MIN)
    case _ => false
  }

  lemma AgedLooksRecentOnlyWrapped(cycle: int, last: int, min: int)
    requires Aged(cycle, last, min) && 0 <= min < INTEGER_HALF
    ensures LooksRecent(cycle, last, min) <==> Wrapped(cycle, last, min)
  {
  }

  /** True ages always meet the limits; the monitor stops exactly when its own stamps have wrapped. */
  lemma StepViolatesOnlyWrapped(cfg: Config, s: Registers, i: Inputs, m: Monitor)
    requires cfg.Valid() && Inv(cfg, s) && Settled(s, m) && !i.reset
    ensures var p := Phy.EnginePins(Step(cfg, s, i)); Violates(m, p) <==> StampsWrapped(m, p)
  {
    var p := Phy.EnginePins(Step(cfg, s, i));
    Timing.PinsShowCommand(cfg, s, i);
    match Decode(p) {
      case CmdWrite => AgedLooksRecentOnlyWrapped(m.cycle, m.lastRead, TRTW_MIN);
      case CmdRead => AgedLooksRecentOnlyWrapped(m.cycle, m.lastWrite, TWTR_MIN);
      case CmdPre =>
        AgedLooksRecentOnlyWrapped(m.cycle, m.bankWrite[p.ba], TWR_MIN);
        AgedLooksRecentOnlyWrapped(m.cycle, m.bankRead[p.ba], TRTP_MIN);
      case _ =>
    }
  }

  // ---------------------------------------------------------------- whole runs

  datatype Bench = Bench(core: Core.State, monitor: Monitor)

  function BenchStep(cfg: Core.Config, b: Bench, i: Core.Inputs): (n: Bench)
    requires b.monitor.Valid()
    ensures n.monitor.Valid()
  {
    Bench(Core.Step(cfg, b.core, i), if i.reset then RESET else Observe(b.monitor, Core.Pads(b.core)))
  }

  predicate BenchReset(cfg: Core.Config, b: Bench) { Core.IsReset(cfg, b.core) && b.monitor == RESET }

  function BenchRun(cfg: Core.Config, start: Bench, inputs: seq<Core.Inputs>): (b: Bench)
    requires start.monitor.Valid()
    ensures b.monitor.Valid()
  {
    if inputs == [] then start else BenchStep(cfg, BenchRun(cfg, start, inputs[..|inputs| - 1]), inputs[|inputs| - 1])
  }

  /** Before READY there is neither READ nor WRITE. */
  predicate Untouched(m: Monitor) {
    && m.Valid() && m.lastRead == NEVER && m.lastWrite == NEVER
    && forall b :: 0 <= b < 4 ==> m.bankRead[b] == NEVER && m.bankWrite[b] == NEVER
  }

  /** The ages are those after sampling the pins of the current cycle, the verdict is that of sampling them. */
  predicate StateFits(cfg: Core.Config, b: Bench)
    requires b.monitor.Valid()
  {
    var m := Observe(b.monitor, Core.Pads(b.core));
    && Core.Fits(cfg, b.core) && b.monitor.cycle >= 0
    && (if b.core.init.ready then Settled(b.core.engine, m) else Untouched(m))
    && (Violates(b.monitor, Core.Pads(b.core)) <==> StampsWrapped(b.monitor, Core.Pads(b.core)))
  }

  lemma UntouchedIsSafe(m: Monitor, p: Pins)
    requires Untouched(m) && Decode(p) != CmdRead && Decode(p) != CmdWrite
    ensures Untouched(Observe(m, p)) && !Violates(m, p) && !StampsWrapped(m, p)
    ensures forall s: Registers :: Settled(s, Observe(m, p))
  {
  }

  lemma StartFits(cfg: Core.Config, b: Bench)
    requires cfg.Valid() && BenchReset(cfg, b)
    ensures StateFits(cfg, b)
  {
    Core.ResetFits(cfg, b.core);
    UntouchedIsSafe(RESET, Core.Pads(b.core));
  }

  lemma InitStepFits(cfg: Core.Config, b: Bench, i: Core.Inputs)
    requires cfg.Valid() && b.monitor.Valid() && StateFits(cfg, b) && !b.core.init.ready && !i.reset
    ensures StateFits(cfg, BenchStep(cfg, b, i))
  {
    var m := Observe(b.monitor, Core.Pads(b.core));
    var n := BenchStep(cfg, b, i);
    Core.StepFits(cfg, b.core, i);
    Core.StepKeepsWaiting(cfg, b.core, i);
    Runs.InitPinsShowCommand(cfg.init, b.core.init, i.initDdr);
    UntouchedIsSafe(m, Core.Pads(n.core));
  }

  lemma EngineStepFits(cfg: Core.Config, b: Bench, i: Core.Inputs)
    requires cfg.Valid() && b.monitor.Valid() && StateFits(cfg, b) && b.core.init.ready && !i.reset
    ensures StateFits(cfg, BenchStep(cfg, b, i))
  {
    var m := Observe(b.monitor, Core.Pads(b.core));
    var wires := Core.EngineInputs(b.core, i);
    var t := Step(cfg.engine, b.core.engine, wires);
    Core.ReadyStays(cfg, b.core, i);
    Core.StepFits(cfg, b.core, i);
    StepEdges(cfg.engine, b.core.engine, wires);
    Timing.PinsShowCommand(cfg.engine, b.core.engine, wires);
    EdgeSettles(cfg.engine, b.core.engine, wires, t, m, Phy.EnginePins(t));
    StepViolatesOnlyWrapped(cfg.engine, b.core.engine, wires, m);
  }

  /**
   * Turnaround safety: on every run from reset, for any command stream and any inputs, the monitor stops
   * the simulation exactly when its 32-bit stamps have wrapped.
   */
  lemma {:induction false} SafeUntilStampsWrap(cfg: Core.Config, start: Bench, inputs: seq<Core.Inputs>)
    requires cfg.Valid() && BenchReset(cfg, start)
    ensures StateFits(cfg, BenchRun(cfg, start, inputs))
    ensures var b := BenchRun(cfg, start, inputs);
      Violates(b.monitor, Core.Pads(b.core)) <==> StampsWrapped(b.monitor, Core.Pads(b.core))
  {
    if inputs == [] {
      StartFits(cfg, start);
    } else {
      var before := BenchRun(cfg, start, inputs[..|inputs| - 1]);
      var i := inputs[|inputs| - 1];
      SafeUntilStampsWrap(cfg, start, inputs[..|inputs| - 1]);
      if i.reset {
        StartFits(cfg, BenchStep(cfg, before, i));
      } else if before.core.init.ready {
        EngineStepFits(cfg, before, i);
      } else {
        InitStepFits(cfg, before, i);
      }
    }
  }

  predicate StampsWithin(m: Monitor, max: int) {
    && m.Valid() && 0 <= m.cycle <= max && NEVER <= m.lastRead && NEVER <= m.lastWrite
    && forall b :: 0 <= b < 4 ==> NEVER <= m.bankRead[b] && NEVER <= m.bankWrite[b]
  }

  lemma StepStaysWithin(cfg: Core.Config, b: Bench, i: Core.Inputs, n: nat)
    requires b.monitor.Valid() && n > 0 && StampsWithin(b.monitor, n - 1)
    ensures StampsWithin(BenchStep(cfg, b, i).monitor, n)
  {
  }

  lemma {:induction false} CycleCountsSteps(cfg: Core.Config, start: Bench, inputs: seq<Core.Inputs>)
    requires BenchReset(cfg, start)
    ensures StampsWithin(BenchRun(cfg, start, inputs).monitor, |inputs|)
  {
    if inputs != [] {
      CycleCountsSteps(cfg, start, inputs[..|inputs| - 1]);
      StepStaysWithin(cfg, BenchRun(cfg, start, inputs[..|inputs| - 1]), inputs[|inputs| - 1], |inputs|);
    }
  }

  lemma NoWrapYet(m: Monitor, p: Pins)
    requires StampsWithin(m, INTEGER_HALF - 1)
    ensures !StampsWrapped(m, p)
  {
  }

  /** Shorter than 2^31 cycles, no run ever breaks a turnaround rule. */
  lemma SafeBeforeWrap(cfg: Core.Config, start: Bench, inputs: seq<Core.Inputs>)
    requires cfg.Valid() && BenchReset(cfg, start) && |inputs| < INTEGER_HALF
    ensures var b := BenchRun(cfg, start, inputs); !Violates(b.monitor, Core.Pads(b.core))
  {
    SafeUntilStampsWrap(cfg, start, inputs);
    CycleCountsSteps(cfg, start, inputs);
    var b := BenchRun(cfg, start, inputs);
    NoWrapYet(b.monitor, Core.Pads(b.core));
  }
}
