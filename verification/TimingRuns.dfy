/** Timing safety over whole runs: init engine, protocol engine, PHY and timing monitor together. */
module TimingRuns {
  import opened DdrBus
  import opened TimingChecker
  import opened TimingSafety
  import opened EngineInvariant
  import Init = InitEngine
  import Engine = ProtocolEngine
  import opened Phy
  import opened Core

  // ---------------------------------------------------------------- before READY

  function InitCommand(st: Init.State): Command {
    match st
    case Pre => CmdPre
    case FinalPre => CmdPre
    case Ref1 => CmdRef
    case Ref2 => CmdRef
    case _ => CmdNop
  }

  lemma InitPinsShowCommand(cfg: Init.Config, s: Init.Registers, init: bool)
    ensures Decode(InitPins(Init.Step(cfg, s, false, init))) == InitCommand(s.state)
  {
  }

  predicate BeforeFirstRefresh(st: Init.State) {
    match st
    case Idle => true
    case PowerUp => true
    case Cke => true
    case Pre => true
    case Trp => true
    case Emrs2 => true
    case Emrs2W => true
    case Emrs3 => true
    case Emrs3W => true
    case Emrs1 => true
    case Emrs1W => true
    case Mrs => true
    case MrsW => true
    case Ref1 => true
    case _ => false
  }

  function Min(x: int, y: int): int { if x < y then x else y }

  /** Cycles since the last refresh of the initialisation sequence, as far as tRFC cares. */
  function InitRefAge(cfg: Init.Config, s: Init.Registers): int {
    match s.state
    case Ref1W => Min(TRFC_MIN, cfg.trfc - 1 - s.cntr)
    case Ref2W => Min(TRFC_MIN, cfg.trfc - 1 - s.cntr)
    case _ => TRFC_MIN
  }

  predicate CounterLoaded(cfg: Init.Config, s: Init.Registers) {
    match s.state
    case Ref1 => s.cntr == cfg.trfc
    case Ref2 => s.cntr == cfg.trfc
    case Ref1W => s.cntr < cfg.trfc
    case Ref2W => s.cntr < cfg.trfc
    case _ => true
  }

  /** The monitor as the init engine leaves it: no row was ever opened. */
  predicate InitRested(cfg: Init.Config, s: Init.Registers, m: Monitor)
  {
    && m.Valid()
    && (forall b :: 0 <= b < 4 ==>
      && !m.banks[b].rowActive
      && 0 <= m.banks[b].sinceAct <= BYTE_MAX && 0 <= m.banks[b].sincePre <= BYTE_MAX && 0 <= m.banks[b].activeTime <= BYTE_MAX)
    && !m.haveAct && 0 <= m.sinceLastAct <= HALF_MAX
    && m.stamp0 == m.stamp1 == m.stamp2 == m.stamp3 == 0 && m.cycle > 0
    && (m.prev == CmdRef ==> s.state.Ref1W? || s.state.Ref2W?)
  }

  /** The refreshes of the initialisation are far enough apart, and from what follows. */
  predicate InitRefreshed(cfg: Init.Config, s: Init.Registers, m: Monitor) {
    && CounterLoaded(cfg, s) && 0 <= m.sinceRef <= HALF_MAX
    && if BeforeFirstRefresh(s.state) then !m.haveRef else m.sinceRef >= InitRefAge(cfg, s)
  }

  lemma InitStepKeepsRefreshed(cfg: Init.Config, s: Init.Registers, init: bool, m: Monitor)
    requires TRFC_MIN <= cfg.trfc && InitRested(cfg, s, m) && InitRefreshed(cfg, s, m)
    ensures var t := Init.Step(cfg, s, false, init);
      InitRefreshed(cfg, t, Observe(m, InitPins(t))) && !BreaksTrfc(m, InitPins(t))
  {
    InitPinsShowCommand(cfg, s, init);
  }

  lemma InitStepKeepsRested(cfg: Init.Config, s: Init.Registers, init: bool, m: Monitor)
    requires InitRested(cfg, s, m)
    ensures var t := Init.Step(cfg, s, false, init);
      InitRested(cfg, t, Observe(m, InitPins(t))) && (Violates(m, InitPins(t)) ==> BreaksTrfc(m, InitPins(t)))
  {
    var t := Init.Step(cfg, s, false, init);
    InitPinsShowCommand(cfg, s, init);
    var n := Observe(m, InitPins(t));
    forall b | 0 <= b < 4
      ensures !n.banks[b].rowActive && 0 <= n.banks[b].sinceAct <= BYTE_MAX
      ensures 0 <= n.banks[b].sincePre <= BYTE_MAX && 0 <= n.banks[b].activeTime <= BYTE_MAX
    {
      assert n.banks[b] == NextBank(m.banks[b], b == InitPins(t).ba, ActPulse(m, InitPins(t)), Decode(InitPins(t)) == CmdPre);
    }
  }

  // ---------------------------------------------------------------- the bench

  /** The controller core with the timing monitor on its pins. */
  datatype Bench = Bench(core: State, monitor: Monitor)

  function BenchStep(cfg: Config, b: Bench, i: Inputs): (n: Bench)
    requires b.monitor.Valid()
    ensures n.monitor.Valid()
  {
    Bench(Core.Step(cfg, b.core, i), if i.reset then RESET else Observe(b.monitor, Pads(b.core)))
  }

  predicate BenchReset(cfg: Config, b: Bench) { IsReset(cfg, b.core) && b.monitor == RESET }

  function BenchRun(cfg: Config, start: Bench, inputs: seq<Inputs>): (b: Bench)
    requires start.monitor.Valid()
    ensures b.monitor.Valid()
  {
    if inputs == [] then start else BenchStep(cfg, BenchRun(cfg, start, inputs[..|inputs| - 1]), inputs[|inputs| - 1])
  }

  /** The monitor once it has sampled the pins of the current cycle. */
  function Sampled(b: Bench): (m: Monitor)
    requires b.monitor.Valid()
    ensures m.Valid()
  {
    Observe(b.monitor, Pads(b.core))
  }

  predicate StateFits(cfg: Config, b: Bench)
    requires b.monitor.Valid()
  {
    && Fits(cfg, b.core)
    && (if b.core.init.ready then Rested(b.core.engine, Sampled(b)) else InitRested(cfg.init, b.core.init, Sampled(b)))
    && (cfg.init.trfc >= TRFC_MIN ==> RefreshFits(cfg, b))
  }

  /** The distance from the last refresh, which depends on the initial refresh wait. */
  predicate RefreshFits(cfg: Config, b: Bench)
    requires b.monitor.Valid()
  {
    if b.core.init.ready then RefreshRested(b.core.engine, Sampled(b)) else InitRefreshed(cfg.init, b.core.init, Sampled(b))
  }

  /** Every rule but tRAS holds now; tRFC given the initial refresh wait, tFAW up to the wrap of its 32-bit stamps. */
  predicate RulesHold(cfg: Config, b: Bench)
    requires b.monitor.Valid()
  {
    var m := b.monitor;
    var p := Pads(b.core);
    && !BreaksTrcd(m, p) && !BreaksTrp(m, p) && !BreaksTrrd(m, p) && (cfg.init.trfc >= TRFC_MIN ==> !BreaksTrfc(m, p))
    && (BreaksTfaw(m, p) <==> ActPulse(m, p) && StampAliased(m))
  }

  lemma HandOver(cfg: Config, c: State, i: Inputs, m: Monitor)
    requires cfg.Valid() && Waiting(cfg, c.engine) && InitRested(cfg.init, c.init, m)
    requires !c.init.ready && !i.reset && Core.Step(cfg, c, i).init.ready
    ensures var d := Core.Step(cfg, c, i);
      && Rested(d.engine, Observe(m, Pads(d))) && RowsAged(cfg.engine, d.engine, Observe(m, Pads(d)))
      && (InitRefreshed(cfg.init, c.init, m) ==> RefreshRested(d.engine, Observe(m, Pads(d))))
      && !Violates(m, Pads(d)) && Decode(Pads(d)) != CmdAct
  {
    var d := Core.Step(cfg, c, i);
    StepKeepsWaiting(cfg, c, i);
    var n := Observe(m, Pads(d));
    forall b | 0 <= b < 4
      ensures !n.banks[b].rowActive && 0 <= n.banks[b].sinceAct <= BYTE_MAX
      ensures 0 <= n.banks[b].sincePre <= BYTE_MAX && 0 <= n.banks[b].activeTime <= BYTE_MAX
    {
      assert n.banks[b] == NextBank(m.banks[b], b == Pads(d).ba, ActPulse(m, Pads(d)), Decode(Pads(d)) == CmdPre);
    }
  }

  lemma StartFits(cfg: Config, b: Bench)
    requires cfg.Valid() && BenchReset(cfg, b)
    ensures StateFits(cfg, b) && RulesHold(cfg, b) && !BreaksTras(b.monitor, Pads(b.core))
  {
    ResetFits(cfg, b.core);
    var n := Sampled(b);
    forall k | 0 <= k < 4
      ensures n.banks[k] == NextBank(CLEARED, k == 0, false, false)
    {
      assert n.banks[k] == NextBank(RESET.banks[k], k == Pads(b.core).ba, false, false);
    }
  }

  lemma InitStepFits(cfg: Config, b: Bench, i: Inputs)
    requires cfg.Valid() && b.monitor.Valid() && StateFits(cfg, b)
    requires !b.core.init.ready && !i.reset
    ensures StateFits(cfg, BenchStep(cfg, b, i)) && RulesHold(cfg, BenchStep(cfg, b, i))
    ensures !BreaksTras(BenchStep(cfg, b, i).monitor, Pads(BenchStep(cfg, b, i).core))
  {
    var m := Sampled(b);
    var n := BenchStep(cfg, b, i);
    Core.StepFits(cfg, b.core, i);
    if n.core.init.ready {
      HandOver(cfg, b.core, i, m);
    } else {
      StepKeepsWaiting(cfg, b.core, i);
      InitStepKeepsRested(cfg.init, b.core.init, i.initDdr, m);
      if cfg.init.trfc >= TRFC_MIN {
        InitStepKeepsRefreshed(cfg.init, b.core.init, i.initDdr, m);
      }
      assert Pads(n.core) == InitPins(n.core.init);
    }
  }

  lemma EngineStepFits(cfg: Config, b: Bench, i: Inputs)
    requires cfg.Valid() && b.monitor.Valid() && StateFits(cfg, b) && b.core.init.ready && !i.reset
    ensures StateFits(cfg, BenchStep(cfg, b, i)) && RulesHold(cfg, BenchStep(cfg, b, i))
  {
    var m := Sampled(b);
    var n := BenchStep(cfg, b, i);
    var wires := EngineInputs(b.core, i);
    ReadyStays(cfg, b.core, i);
    Core.StepFits(cfg, b.core, i);
    StepKeepsRested(cfg.engine, b.core.engine, wires, m);
    UnconditionalRules(cfg.engine, b.core.engine, wires, m);
    PinsShowCommand(cfg.engine, b.core.engine, wires);
  }

  lemma StepFits(cfg: Config, b: Bench, i: Inputs)
    requires cfg.Valid() && b.monitor.Valid() && StateFits(cfg, b)
    ensures StateFits(cfg, BenchStep(cfg, b, i)) && RulesHold(cfg, BenchStep(cfg, b, i))
  {
    if i.reset {
      StartFits(cfg, BenchStep(cfg, b, i));
    } else if b.core.init.ready {
      EngineStepFits(cfg, b, i);
    } else {
      InitStepFits(cfg, b, i);
    }
  }

  // ---------------------------------------------------------------- whole runs

  /** From reset, for any inputs whatsoever: every rule but tRAS holds in every cycle. */
  lemma {:induction false} RunFits(cfg: Config, start: Bench, inputs: seq<Inputs>)
    requires cfg.Valid() && BenchReset(cfg, start)
    ensures StateFits(cfg, BenchRun(cfg, start, inputs)) && RulesHold(cfg, BenchRun(cfg, start, inputs))
  {
    if inputs == [] {
      StartFits(cfg, start);
    } else {
      var before := inputs[..|inputs| - 1];
      RunFits(cfg, start, before);
      StepFits(cfg, BenchRun(cfg, start, before), inputs[|inputs| - 1]);
    }
  }

  /** No edge of the run sends the engine back to IDLE too early. */
  predicate NoEarlyReturn(cfg: Config, start: Bench, inputs: seq<Inputs>)
    requires start.monitor.Valid()
  {
    inputs == [] ||
    var b := BenchRun(cfg, start, inputs[..|inputs| - 1]);
    var i := inputs[|inputs| - 1];
    && NoEarlyReturn(cfg, start, inputs[..|inputs| - 1])
    && (i.reset || !EarlyReturn(cfg.engine, b.core.engine, EngineInputs(b.core, i)))
  }

  predicate RowsFit(cfg: Config, b: Bench)
    requires b.monitor.Valid()
  {
    b.core.init.ready ==> RowsAged(cfg.engine, b.core.engine, Sampled(b))
  }

  lemma StepKeepsRowsFit(cfg: Config, b: Bench, i: Inputs)
    requires cfg.Valid() && b.monitor.Valid() && StateFits(cfg, b) && RowsFit(cfg, b)
    requires i.reset || !EarlyReturn(cfg.engine, b.core.engine, EngineInputs(b.core, i))
    ensures RowsFit(cfg, BenchStep(cfg, b, i))
    ensures !BreaksTras(BenchStep(cfg, b, i).monitor, Pads(BenchStep(cfg, b, i).core))
  {
    if i.reset {
      StartFits(cfg, BenchStep(cfg, b, i));
    } else if b.core.init.ready {
      ReadyStays(cfg, b.core, i);
      StepKeepsRows(cfg.engine, b.core.engine, EngineInputs(b.core, i), Sampled(b));
    } else {
      InitStepFits(cfg, b, i);
      if BenchStep(cfg, b, i).core.init.ready {
        HandOver(cfg, b.core, i, Sampled(b));
      }
    }
  }

  lemma {:induction false} RunKeepsRows(cfg: Config, start: Bench, inputs: seq<Inputs>)
    requires cfg.Valid() && BenchReset(cfg, start) && NoEarlyReturn(cfg, start, inputs)
    ensures RowsFit(cfg, BenchRun(cfg, start, inputs))
    ensures !BreaksTras(BenchRun(cfg, start, inputs).monitor, Pads(BenchRun(cfg, start, inputs).core))
  {
    if inputs == [] {
      StartFits(cfg, start);
    } else {
      var before := inputs[..|inputs| - 1];
      RunFits(cfg, start, before);
      RunKeepsRows(cfg, start, before);
      StepKeepsRowsFit(cfg, BenchRun(cfg, start, before), inputs[|inputs| - 1]);
    }
  }

  /**
   * Timing safety: on every run from reset in which no command returns early, the monitor stops the
   * simulation exactly when the 32-bit activation stamps of its tFAW rule have wrapped onto each other.
   */
  lemma SafeUntilStampsWrap(cfg: Config, start: Bench, inputs: seq<Inputs>)
    requires cfg.Valid() && cfg.init.trfc >= TRFC_MIN && BenchReset(cfg, start) && NoEarlyReturn(cfg, start, inputs)
    ensures var b := BenchRun(cfg, start, inputs);
      Violates(b.monitor, Pads(b.core)) <==> ActPulse(b.monitor, Pads(b.core)) && StampAliased(b.monitor)
  {
    RunFits(cfg, start, inputs);
    RunKeepsRows(cfg, start, inputs);
  }

  lemma {:induction false} CycleCountsSteps(cfg: Config, start: Bench, inputs: seq<Inputs>)
    requires BenchReset(cfg, start)
    ensures var m := BenchRun(cfg, start, inputs).monitor;
      0 <= m.stamp0 && 0 <= m.stamp1 && 0 <= m.stamp2 && 0 <= m.stamp3 && 0 <= m.cycle <= |inputs|
  {
    if inputs != [] {
      CycleCountsSteps(cfg, start, inputs[..|inputs| - 1]);
    }
  }

  /** Shorter than 2^32 cycles, such a run never breaks any rule. */
  lemma SafeBeforeWrap(cfg: Config, start: Bench, inputs: seq<Inputs>)
    requires cfg.Valid() && cfg.init.trfc >= TRFC_MIN && BenchReset(cfg, start) && NoEarlyReturn(cfg, start, inputs)
    requires |inputs| < CYCLE_WRAP
    ensures var b := BenchRun(cfg, start, inputs); !Violates(b.monitor, Pads(b.core))
  {
    SafeUntilStampsWrap(cfg, start, inputs);
    CycleCountsSteps(cfg, start, inputs);
  }
}
