/**
 * The conditions of timing safety are exact: a command that returns early can be made to break tRAS by the
 * very next request, and an initialisation with too short a refresh wait always breaks tRFC.
 */
module TimingExact {
  import opened DdrBus
  import opened TimingChecker
  import opened TimingSafety
  import opened TimingRuns
  import opened EngineInvariant
  import opened Phy
  import opened Core
  import Init = InitEngine
  import Sequence = InitSequence
  import Engine = ProtocolEngine

  // ---------------------------------------------------------------- tRAS

  /** The command's row is open and the command could still return early. */
  predicate MayReturnEarly(s: Engine.Registers) {
    match s.state
    case Activate => s.cnt == 0
    case BlrAct => true
    case WaitTrcd => s.next.IssueRead? || s.next.BlrIssue?
    case IssueRead => true
    case ScRead => true
    case ScrEnd => true
    case BlrIssue => true
    case BlrRead => true
    case ScrNlsn => true
    case _ => false
  }

  /** Scalars leave ACTIVATE at once, block reads when the ACT gap allows. */
  predicate GapExact(s: Engine.Registers) {
    s.state.Activate? ==>
      && (s.cnt == 1 ==> s.actGap == 0)
      && (s.cnt == 0 ==> 1 <= s.actGap <= Engine.ACT_GAP_MIN)
      && (s.cmd == Engine.CODE_SCR ==> s.actGap == 1 - s.cnt)
  }

  /** The lower bound on the age of an open row is the exact age of the command's own row. */
  predicate ExactAge(cfg: Engine.Config, s: Engine.Registers, m: Monitor)
    requires m.Valid()
  {
    && s.ba == s.bank && m.banks[s.bank].rowActive && m.banks[s.bank].activeTime == RowAge(cfg, s)
  }

  lemma EarlyFlow(cfg: Engine.Config, s: Engine.Registers, i: Engine.Inputs, t: Engine.Registers)
    requires CommandFits(s) && CountFits(cfg, s) && FlowEdge(cfg, s, i, t) && CommandEdge(s, i, t) && MayReturnEarly(t)
    ensures MayReturnEarly(s) || (s.state.Activate? && s.cnt == 1)
    ensures CommandOf(s.state) != CmdPre && !Engine.Latches(s)
  {
  }

  lemma EdgeKeepsGap(cfg: Engine.Config, s: Engine.Registers, i: Engine.Inputs, t: Engine.Registers)
    requires CountFits(cfg, s) && CommandFits(s) && s.haveAct && s.state.Activate? && GapExact(s)
    requires FlowEdge(cfg, s, i, t) && CommandEdge(s, i, t) && TimerEdge(cfg, s, i, t)
    ensures GapExact(t)
  {
  }

  lemma OtherEdgeKeepsGap(cfg: Engine.Config, s: Engine.Registers, i: Engine.Inputs, t: Engine.Registers)
    requires CommandFits(s) && !s.state.Activate?
    requires FlowEdge(cfg, s, i, t) && CommandEdge(s, i, t) && TimerEdge(cfg, s, i, t)
    ensures GapExact(t)
  {
    if t.state.Activate? {
      LatchFlow(cfg, s, i, t);
    }
  }

  lemma OnlyGetLeadsToActivate(a: Engine.State, b: Engine.State)
    requires Arrow(a, b) && a != Engine.Activate && b == Engine.Activate
    ensures a == Engine.GetCmd
  {
  }

  lemma LatchFlow(cfg: Engine.Config, s: Engine.Registers, i: Engine.Inputs, t: Engine.Registers)
    requires CommandFits(s) && !s.state.Activate? && FlowEdge(cfg, s, i, t) && t.state.Activate?
    ensures Engine.Latches(s) && t.cnt == 1
  {
    EdgeFollowsArrow(cfg, s, i, t);
    OnlyGetLeadsToActivate(s.state, t.state);
  }

  lemma OpeningAge(cfg: Engine.Config, s: Engine.Registers, i: Engine.Inputs, t: Engine.Registers)
    requires CommandFits(s) && CountFits(cfg, s) && s.haveAct && GapExact(s)
    requires s.state.Activate?
    requires FlowEdge(cfg, s, i, t) && CommandEdge(s, i, t) && TimerEdge(cfg, s, i, t) && MayReturnEarly(t)
    ensures RowAge(cfg, t) == if s.cnt == 1 then 0 else RowAge(cfg, s) + 1
    ensures 0 <= RowAge(cfg, t) < BYTE_MAX
  {
  }

  lemma WaitingAge(cfg: Engine.Config, s: Engine.Registers, i: Engine.Inputs, t: Engine.Registers)
    requires cfg.Valid() && CommandFits(s) && CountFits(cfg, s) && (s.state.BlrAct? || s.state.WaitTrcd?)
    requires FlowEdge(cfg, s, i, t) && t.next == Engine.NextTarget(s) && MayReturnEarly(t)
    ensures RowAge(cfg, t) == RowAge(cfg, s) + 1
    ensures 0 <= RowAge(cfg, t) < BYTE_MAX
  {
  }

  lemma ReadingAge(cfg: Engine.Config, s: Engine.Registers, i: Engine.Inputs, t: Engine.Registers)
    requires cfg.Valid() && CommandFits(s) && CountFits(cfg, s) && MayReturnEarly(s)
    requires !s.state.Activate? && !s.state.BlrAct? && !s.state.WaitTrcd?
    requires FlowEdge(cfg, s, i, t) && MayReturnEarly(t)
    ensures RowAge(cfg, t) == RowAge(cfg, s) + 1
    ensures 0 <= RowAge(cfg, t) < BYTE_MAX
  {
  }

  lemma AgeMoves(cfg: Engine.Config, s: Engine.Registers, i: Engine.Inputs, t: Engine.Registers)
    requires cfg.Valid() && CommandFits(s) && CountFits(cfg, s) && TimersFit(cfg, s) && GapExact(s)
    requires FlowEdge(cfg, s, i, t) && CommandEdge(s, i, t) && TimerEdge(cfg, s, i, t) && MayReturnEarly(t)
    ensures RowAge(cfg, t) == if s.state.Activate? && s.cnt == 1 then 0 else RowAge(cfg, s) + 1
    ensures 0 <= RowAge(cfg, t) < BYTE_MAX
  {
    if s.state.Activate? {
      OpeningAge(cfg, s, i, t);
    } else if s.state.BlrAct? || s.state.WaitTrcd? {
      WaitingAge(cfg, s, i, t);
    } else {
      EarlyFlow(cfg, s, i, t);
      ReadingAge(cfg, s, i, t);
    }
  }

  lemma BankStays(s: Engine.Registers, i: Engine.Inputs, t: Engine.Registers)
    requires MayReturnEarly(s) || s.state.Activate?
    requires s.state.Activate? || s.ba == s.bank
    requires t.ba == Engine.NextBa(s) && DataEdge(s, i, t)
    ensures t.ba == t.bank == s.bank
  {
  }

  lemma EdgeKeepsExactAge(cfg: Engine.Config, s: Engine.Registers, i: Engine.Inputs, t: Engine.Registers, m: Monitor, p: Pins)
    requires cfg.Valid() && CommandFits(s) && CountFits(cfg, s) && TimersFit(cfg, s) && m.Valid() && GapExact(s)
    requires MayReturnEarly(s) ==> ExactAge(cfg, s, m)
    requires FlowEdge(cfg, s, i, t) && CommandEdge(s, i, t) && TimerEdge(cfg, s, i, t)
    requires t.ba == Engine.NextBa(s) && DataEdge(s, i, t)
    requires Decode(p) == CommandOf(s.state) && p.ba == t.ba
    requires ActPulse(m, p) <==> s.state.Activate? && s.cnt == 1
    ensures MayReturnEarly(t) ==> ExactAge(cfg, t, Observe(m, p))
  {
    if MayReturnEarly(t) {
      EarlyFlow(cfg, s, i, t);
      AgeMoves(cfg, s, i, t);
      BankStays(s, i, t);
      assert Observe(m, p).banks[t.bank] == NextBank(m.banks[t.bank], t.bank == p.ba, ActPulse(m, p), Decode(p) == CmdPre);
    }
  }

  // ---------------------------------------------------------------- the next request breaks tRAS

  /** A bank's row is open, has been so for `age` cycles, and the bank pins still name it. */
  predicate OpenFor(s: Engine.Registers, m: Monitor, age: int)
    requires m.Valid()
  {
    m.banks[s.ba].rowActive && m.banks[s.ba].activeTime == age
  }

  lemma StaysOpen(s: Engine.Registers, t: Engine.Registers, m: Monitor, p: Pins, age: int)
    requires m.Valid() && OpenFor(s, m, age) && 0 <= age < BYTE_MAX && t.ba == s.ba && p.ba == t.ba
    requires !ActPulse(m, p) && Decode(p) != CmdPre
    ensures OpenFor(t, Observe(m, p), age + 1)
  {
    assert Observe(m, p).banks[t.ba] == NextBank(m.banks[t.ba], true, false, false);
  }

  lemma EarlyReturnLeavesOpen(cfg: Engine.Config, s: Engine.Registers, i: Engine.Inputs, m: Monitor)
    requires cfg.Valid() && Inv(cfg, s) && Rested(s, m) && GapExact(s) && (MayReturnEarly(s) ==> ExactAge(cfg, s, m))
    requires EarlyReturn(cfg, s, i) && !i.reset
    ensures var t := Engine.Step(cfg, s, i);
      && t.state.Idle? && !t.selfRefresh && !t.powerDown
      && RowAge(cfg, s) <= TRAS_MIN - 3 && OpenFor(t, Observe(m, EnginePins(t)), RowAge(cfg, s) + 1)
  {
    var t := Engine.Step(cfg, s, i);
    StepEdges(cfg, s, i);
    PinsShowCommand(cfg, s, i);
    StepKeepsInv(cfg, s, i);
    StaysOpen(s, t, m, EnginePins(t), RowAge(cfg, s));
  }

  lemma RequestLeavesOpen(cfg: Engine.Config, t: Engine.Registers, j: Engine.Inputs, m: Monitor, age: int)
    requires Inv(cfg, t) && t.state.Idle? && !t.selfRefresh && !t.powerDown
    requires m.Valid() && OpenFor(t, m, age) && 0 <= age < BYTE_MAX
    requires j.ready && j.selfRefreshReq && !j.reset
    ensures var u := Engine.Step(cfg, t, j);
      u.state.SrefPre? && OpenFor(u, Observe(m, EnginePins(u)), age + 1)
  {
    var u := Engine.Step(cfg, t, j);
    StepEdges(cfg, t, j);
    PinsShowCommand(cfg, t, j);
    StaysOpen(t, u, m, EnginePins(u), age);
  }

  lemma PrechargeBreaks(cfg: Engine.Config, u: Engine.Registers, k: Engine.Inputs, m: Monitor, age: int)
    requires Inv(cfg, u) && u.state.SrefPre? && m.Valid() && OpenFor(u, m, age) && age < TRAS_MIN && !k.reset
    ensures BreaksTras(m, EnginePins(Engine.Step(cfg, u, k)))
  {
    StepEdges(cfg, u, k);
    PinsShowCommand(cfg, u, k);
  }

  predicate BenchExact(cfg: Config, b: Bench)
    requires b.monitor.Valid()
  {
    b.core.init.ready ==>
      && GapExact(b.core.engine)
      && (MayReturnEarly(b.core.engine) ==> ExactAge(cfg.engine, b.core.engine, Sampled(b)))
  }

  lemma StepKeepsExact(cfg: Config, b: Bench, i: Inputs)
    requires cfg.Valid() && b.monitor.Valid() && StateFits(cfg, b) && BenchExact(cfg, b) && !i.reset
    ensures BenchExact(cfg, BenchStep(cfg, b, i))
  {
    var s := b.core.engine;
    var wires := EngineInputs(b.core, i);
    var t := Engine.Step(cfg.engine, s, wires);
    if b.core.init.ready {
      ReadyStays(cfg, b.core, i);
      StepEdges(cfg.engine, s, wires);
      PinsShowCommand(cfg.engine, s, wires);
      EngineKeepsExact(cfg.engine, s, wires, t, Sampled(b), EnginePins(t));
    } else {
      StepKeepsWaiting(cfg, b.core, i);
    }
  }

  lemma EngineKeepsExact(cfg: Engine.Config, s: Engine.Registers, i: Engine.Inputs, t: Engine.Registers, m: Monitor, p: Pins)
    requires cfg.Valid() && Inv(cfg, s) && Rested(s, m) && GapExact(s) && (MayReturnEarly(s) ==> ExactAge(cfg, s, m))
    requires FlowEdge(cfg, s, i, t) && CommandEdge(s, i, t) && TimerEdge(cfg, s, i, t)
    requires t.ba == Engine.NextBa(s) && DataEdge(s, i, t)
    requires Decode(p) == CommandOf(s.state) && p.ba == t.ba
    ensures GapExact(t) && (MayReturnEarly(t) ==> ExactAge(cfg, t, Observe(m, p)))
  {
    if s.state.Activate? {
      EdgeKeepsGap(cfg, s, i, t);
    } else {
      OtherEdgeKeepsGap(cfg, s, i, t);
    }
    PulseIsOpening(cfg, s, m, p);
    EdgeKeepsExactAge(cfg, s, i, t, m, p);
  }

  lemma PulseIsOpening(cfg: Engine.Config, s: Engine.Registers, m: Monitor, p: Pins)
    requires CountFits(cfg, s) && PrevFits(s, m) && Decode(p) == CommandOf(s.state)
    ensures ActPulse(m, p) <==> s.state.Activate? && s.cnt == 1
  {
  }

  lemma {:induction false} RunExact(cfg: Config, start: Bench, inputs: seq<Inputs>)
    requires cfg.Valid() && BenchReset(cfg, start)
    ensures BenchExact(cfg, BenchRun(cfg, start, inputs))
  {
    if inputs != [] {
      var before := inputs[..|inputs| - 1];
      var i := inputs[|inputs| - 1];
      RunExact(cfg, start, before);
      TimingRuns.RunFits(cfg, start, before);
      if !i.reset {
        StepKeepsExact(cfg, BenchRun(cfg, start, before), i);
      }
    }
  }

  /**
   * The other half of tRAS safety: wherever a run sends the engine back to IDLE early, asking for
   * self-refresh in the next cycle makes the monitor stop two cycles later.
   */
  lemma EarlyReturnBreaksTras(cfg: Config, start: Bench, inputs: seq<Inputs>, i: Inputs, j: Inputs, k: Inputs)
    requires cfg.Valid() && BenchReset(cfg, start)
    requires !i.reset && !j.reset && !k.reset && j.wires.selfRefreshReq
    requires var b := BenchRun(cfg, start, inputs);
      b.core.init.ready && EarlyReturn(cfg.engine, b.core.engine, EngineInputs(b.core, i))
    ensures var n := BenchStep(cfg, BenchStep(cfg, BenchStep(cfg, BenchRun(cfg, start, inputs), i), j), k);
      BreaksTras(n.monitor, Pads(n.core)) && Violates(n.monitor, Pads(n.core))
  {
    var b := BenchRun(cfg, start, inputs);
    TimingRuns.RunFits(cfg, start, inputs);
    RunExact(cfg, start, inputs);
    BreaksFrom(cfg, b, BenchStep(cfg, b, i), BenchStep(cfg, BenchStep(cfg, b, i), j), i, j, k);
  }

  lemma BreaksFrom(cfg: Config, b: Bench, c: Bench, d: Bench, i: Inputs, j: Inputs, k: Inputs)
    requires cfg.Valid() && b.monitor.Valid() && StateFits(cfg, b) && BenchExact(cfg, b) && b.core.init.ready
    requires !i.reset && !j.reset && !k.reset && j.wires.selfRefreshReq
    requires EarlyReturn(cfg.engine, b.core.engine, EngineInputs(b.core, i))
    requires c == BenchStep(cfg, b, i) && d == BenchStep(cfg, c, j)
    ensures c.monitor.Valid() && d.monitor.Valid()
    ensures BreaksTras(BenchStep(cfg, d, k).monitor, Pads(BenchStep(cfg, d, k).core))
  {
    var s := b.core.engine;
    ReadyStays(cfg, b.core, i);
    ReadyStays(cfg, c.core, j);
    ReadyStays(cfg, d.core, k);
    EarlyReturnLeavesOpen(cfg.engine, s, EngineInputs(b.core, i), Sampled(b));
    Core.StepFits(cfg, b.core, i);
    Core.StepFits(cfg, c.core, j);
    RequestLeavesOpen(cfg.engine, c.core.engine, EngineInputs(c.core, j), Sampled(c), RowAge(cfg.engine, s) + 1);
    PrechargeBreaks(cfg.engine, d.core.engine, EngineInputs(d.core, k), Sampled(d), RowAge(cfg.engine, s) + 2);
  }

  // ---------------------------------------------------------------- tRFC during initialisation

  function Capped(x: int): int { Min(x, HALF_MAX) }

  /** The monitor's view of the two refreshes, for any refresh wait. */
  predicate InitRefreshes(cfg: Init.Config, s: Init.Registers, m: Monitor) {
    && m.Valid() && 0 <= m.sinceRef <= HALF_MAX
    && (m.prev == CmdRef ==> s.state.Ref1W? || s.state.Ref2W?)
    && match s.state
      case Ref1 => s.cntr == cfg.trfc
      case Ref1W => m.haveRef && s.cntr <= Sequence.RefreshGap(cfg) - 2
                    && m.sinceRef == Capped(Sequence.RefreshGap(cfg) - 2 - s.cntr)
      case Ref2 => m.haveRef && m.sinceRef == Capped(Sequence.RefreshGap(cfg) - 1)
      case _ => true
  }

  lemma InitStepKeepsRefreshes(cfg: Init.Config, s: Init.Registers, init: bool, m: Monitor)
    requires InitRefreshes(cfg, s, m)
    ensures var t := Init.Step(cfg, s, false, init); InitRefreshes(cfg, t, Observe(m, InitPins(t)))
  {
    InitPinsShowCommand(cfg, s, init);
  }

  lemma {:induction false} InitRunKeepsRefreshes(cfg: Config, start: Bench, inputs: seq<Inputs>)
    requires cfg.Valid() && BenchReset(cfg, start)
    ensures var b := BenchRun(cfg, start, inputs);
      Fits(cfg, b.core) && (!b.core.init.ready ==> InitRefreshes(cfg.init, b.core.init, Sampled(b)))
  {
    if inputs == [] {
      ResetFits(cfg, start.core);
    } else {
      var b := BenchRun(cfg, start, inputs[..|inputs| - 1]);
      var i := inputs[|inputs| - 1];
      InitRunKeepsRefreshes(cfg, start, inputs[..|inputs| - 1]);
      Core.StepFits(cfg, b.core, i);
      if i.reset {
      } else if b.core.init.ready {
        ReadyStays(cfg, b.core, i);
      } else {
        InitStepKeepsRefreshes(cfg.init, b.core.init, i.initDdr, Sampled(b));
      }
    }
  }

  lemma SecondRefresh(cfg: Init.Config, s: Init.Registers, m: Monitor, p: Pins)
    requires InitRefreshes(cfg, s, m) && s.state.Ref2? && Decode(p) == CmdRef
    ensures Violates(m, p) <==> cfg.trfc < TRFC_MIN
  {
  }

  /** The second refresh of the initialisation breaks tRFC exactly if the refresh wait is below its minimum. */
  lemma InitRefreshRule(cfg: Config, start: Bench, inputs: seq<Inputs>, i: Inputs)
    requires cfg.Valid() && BenchReset(cfg, start) && !i.reset
    requires BenchRun(cfg, start, inputs).core.init.state.Ref2?
    ensures var n := BenchStep(cfg, BenchRun(cfg, start, inputs), i);
      Violates(n.monitor, Pads(n.core)) <==> cfg.init.trfc < TRFC_MIN
  {
    var b := BenchRun(cfg, start, inputs);
    var n := BenchStep(cfg, b, i);
    InitRunKeepsRefreshes(cfg, start, inputs);
    InitPinsShowCommand(cfg.init, b.core.init, i.initDdr);
    assert Pads(n.core) == InitPins(n.core.init);
    SecondRefresh(cfg.init, b.core.init, Sampled(b), Pads(n.core));
  }
}
