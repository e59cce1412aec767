/** The protocol engine and the memory in lockstep through scalar reads and writes. */
module ScalarBurst {
  import opened DdrBus
  import opened ProtocolEngine
  import opened EngineInvariant
  import opened SimpleMem
  import Trace = CommandTrace
  import Timing = TimingSafety
  import Engine = ProtocolEngine
  import Phy
  import Init = InitEngine
  import Runs = TimingRuns
  import Core

  /** Only scalar commands reach the engine. */
  predicate ScalarOnly(s: Registers) { Trace.Executing(s.state) ==> s.cmd == CODE_SCR || s.cmd == CODE_SCW }

  lemma EdgeKeepsScalar(cfg: Engine.Config, s: Registers, i: Inputs, t: Registers)
    requires CommandFits(s) && ScalarOnly(s) && FlowEdge(cfg, s, i, t) && CommandEdge(s, i, t)
    requires Latches(s) ==> i.cmd == CODE_SCR || i.cmd == CODE_SCW
    ensures ScalarOnly(t)
  {
    if !Trace.Executing(s.state) {
      Trace.RestFlow(cfg, s, i, t);
    }
  }

  // ---------------------------------------------------------------- what the pins show

  predicate PinsFit(cfg: Engine.Config, s: Registers, p: Pins) {
    && (Decode(p) == CmdRead <==> s.state.ScRead? && s.cnt == cfg.readWait)
    && (Decode(p) == CmdWrite <==> s.state.ScWrite? && s.cnt == WRITE_WAIT)
    && (Decode(p) == CmdRead || Decode(p) == CmdWrite ==> p.ba == s.bank && p.a == ColumnPins(s.col, true))
    && (Decode(p) == CmdAct ==> (s.state.Activate? || s.state.WaitTrcd?) && p.ba == s.bank && p.a == s.row)
    && (s.state.Activate? && s.cnt == 0 ==> Decode(p) == CmdAct)
  }

  lemma EdgePins(cfg: Engine.Config, s: Registers, i: Inputs, t: Registers, p: Pins)
    requires CommandFits(s) && CountFits(cfg, s) && ScalarOnly(s) && FlowEdge(cfg, s, i, t) && DataEdge(s, i, t)
    requires Decode(p) == Timing.CommandOf(s.state) && p.ba == NextBa(s) && p.a == NextA(cfg, s)
    ensures PinsFit(cfg, t, p)
  {
  }

  /** Before READY the pins belong to the init engine, which neither activates, reads nor writes. */
  predicate PadsFit(cfg: Core.Config, c: Core.State) {
    && PinsFit(cfg.engine, c.engine, Core.Pads(c))
    && (!c.init.ready ==> QuietInit(Core.Pads(c)))
  }

  predicate QuietInit(p: Pins) { Decode(p) != CmdAct && Decode(p) != CmdRead && Decode(p) != CmdWrite }

  lemma RestingPins(cfg: Engine.Config, s: Registers, p: Pins)
    requires s.state.Idle? && QuietInit(p)
    ensures PinsFit(cfg, s, p)
  {
  }

  lemma StepKeepsPads(cfg: Core.Config, c: Core.State, i: Core.Inputs)
    requires cfg.Valid() && Core.Fits(cfg, c) && ScalarOnly(c.engine) && PadsFit(cfg, c) && !i.reset
    ensures PadsFit(cfg, Core.Step(cfg, c, i))
  {
    var d := Core.Step(cfg, c, i);
    if c.init.ready {
      var wires := Core.EngineInputs(c, i);
      Core.ReadyStays(cfg, c, i);
      StepEdges(cfg.engine, c.engine, wires);
      Timing.PinsShowCommand(cfg.engine, c.engine, wires);
      EdgePins(cfg.engine, c.engine, wires, d.engine, Phy.EnginePins(d.engine));
    } else {
      Core.StepKeepsWaiting(cfg, c, i);
      Runs.InitPinsShowCommand(cfg.init, c.init, i.initDdr);
      RestingPins(cfg.engine, d.engine, Core.Pads(d));
    }
  }

  // ---------------------------------------------------------------- the memory follows

  /** Where the current command reads or writes. */
  function Target(s: Registers): Burst { Burst(s.row, s.bank, s.col % 512) }

  /** The device knows the open row of the command's bank from the second ACTIVATE cycle on. */
  predicate RowKnown(s: Registers, m: Memory)
    requires |m.rows| == 4
  {
    match s.state
    case WaitTrcd => m.rows[s.bank] == s.row
    case IssueRead => m.rows[s.bank] == s.row
    case ScRead => m.rows[s.bank] == s.row
    case IssueWrite => m.rows[s.bank] == s.row
    case ScWrite => m.rows[s.bank] == s.row
    case _ => true
  }

  predicate ReadIdle(m: Memory) { !m.rdPending && !m.rdDrive }

  /** The read burst on the device, three cycles behind the engine's own count. */
  predicate ReadFits(cfg: Engine.Config, mc: SimpleMem.Config, s: Registers, m: Memory)
    requires m.Valid(mc)
  {
    match s.state
    case ScRead =>
      if s.cnt == cfg.readWait then ReadIdle(m)
      else m.rdPending && !m.rdDrive && m.rd == Target(s) && m.rdLat == s.cnt + 3
    case ScrEnd =>
      if s.cnt == 8 then m.rdPending && !m.rdDrive && m.rd == Target(s) && m.rdLat == 2
      else if s.cnt > 0 then
        && m.rdPending && m.rdDrive && m.rdBeat == 8 - s.cnt
        && (s.cnt == 7 ==> m.rdData == m.cells[CellOf(mc, Target(s))])
      else ReadIdle(m)
    case _ => ReadIdle(m)
  }

  /** The write burst: the device starts to listen when the engine starts to drive. */
  predicate WriteFits(s: Registers, m: Memory) {
    match s.state
    case ScWrite =>
      if s.cnt == WRITE_WAIT then !m.wrPending
      else m.wrPending && m.wr == Target(s) && m.wrLat == s.cnt + 1 && m.wrBeat == 0
    case ScwrData => m.wrPending && m.wr == Target(s) && m.wrLat == 0 && m.wrBeat == 7 - s.cnt
    case _ => !m.wrPending
  }

  predicate SameTarget(s: Registers, t: Registers) { t.row == s.row && t.bank == s.bank && t.col == s.col }

  lemma EdgeKeepsTarget(cfg: Engine.Config, s: Registers, i: Inputs, t: Registers)
    requires CommandFits(s) && FlowEdge(cfg, s, i, t) && DataEdge(s, i, t)
    ensures Latches(s) ==> t.state.Activate?
    ensures !Latches(s) ==> SameTarget(s, t)
  {
  }

  lemma EdgeKeepsRow(cfg: Engine.Config, mc: SimpleMem.Config, s: Registers, i: Inputs, t: Registers, m: Memory, p: Pins, dq: Dq)
    requires CommandFits(s) && CountFits(cfg, s) && ScalarOnly(s) && FlowEdge(cfg, s, i, t) && DataEdge(s, i, t)
    requires m.Valid(mc) && PinsFit(cfg, s, p) && RowKnown(s, m)
    ensures RowKnown(t, SimpleMem.Step(mc, m, p, dq))
  {
    EdgeKeepsTarget(cfg, s, i, t);
    RowFlow(cfg, s, i, t);
  }

  lemma RowFlow(cfg: Engine.Config, s: Registers, i: Inputs, t: Registers)
    requires CommandFits(s) && CountFits(cfg, s) && ScalarOnly(s) && FlowEdge(cfg, s, i, t)
    ensures t.state.WaitTrcd? ==> s.state.WaitTrcd? || (s.state.Activate? && s.cnt == 0)
    ensures t.state.IssueRead? || t.state.IssueWrite? ==> s.state.WaitTrcd?
    ensures t.state.ScRead? ==> s.state.IssueRead? || s.state.ScRead?
    ensures t.state.ScWrite? ==> s.state.IssueWrite? || s.state.ScWrite?
  {
  }

  /** The column pins carry the nine column bits back to the device. */
  lemma ColumnArrives(col: int)
    ensures ColumnPins(col, true) / 2 % 512 == col % 512
  {
  }

  lemma EdgeKeepsRead(cfg: Engine.Config, mc: SimpleMem.Config, s: Registers, i: Inputs, t: Registers, m: Memory, p: Pins, dq: Dq)
    requires cfg.Valid() && mc.Valid() && mc.readLatency == cfg.readWait + 2
    requires CommandFits(s) && CountFits(cfg, s) && ScalarOnly(s) && FlowEdge(cfg, s, i, t) && DataEdge(s, i, t)
    requires m.Valid(mc) && PinsFit(cfg, s, p) && RowKnown(s, m) && ReadFits(cfg, mc, s, m) && WriteFits(s, m)
    ensures ReadFits(cfg, mc, t, SimpleMem.Step(mc, m, p, dq))
  {
    EdgeKeepsTarget(cfg, s, i, t);
    ColumnArrives(s.col);
    ReadFlow(cfg, s, i, t);
  }

  lemma ReadFlow(cfg: Engine.Config, s: Registers, i: Inputs, t: Registers)
    requires cfg.Valid() && CommandFits(s) && CountFits(cfg, s) && ScalarOnly(s) && FlowEdge(cfg, s, i, t)
    ensures t.state.ScRead? ==>
      (s.state.IssueRead? && t.cnt == cfg.readWait) || (s.state.ScRead? && t.cnt == s.cnt - 1)
    ensures t.state.ScrEnd? ==>
      (s.state.ScRead? && s.cnt == 0 && t.cnt == 8) || (s.state.ScrEnd? && t.cnt == s.cnt - 1)
    ensures s.state.ScRead? ==> t.state.ScRead? || t.state.ScrEnd?
    ensures s.state.ScrEnd? && s.cnt > 0 ==> t.state.ScrEnd?
  {
  }

  lemma EdgeKeepsWrite(cfg: Engine.Config, mc: SimpleMem.Config, s: Registers, i: Inputs, t: Registers, m: Memory, p: Pins, dq: Dq)
    requires cfg.Valid() && CommandFits(s) && CountFits(cfg, s) && ScalarOnly(s) && FlowEdge(cfg, s, i, t) && DataEdge(s, i, t)
    requires m.Valid(mc) && PinsFit(cfg, s, p) && RowKnown(s, m) && WriteFits(s, m)
    ensures WriteFits(t, SimpleMem.Step(mc, m, p, dq))
    ensures Commits(m) <==> s.state.ScwrData? && s.cnt == 0
  {
    EdgeKeepsTarget(cfg, s, i, t);
    ColumnArrives(s.col);
    WriteFlow(cfg, s, i, t);
  }

  lemma WriteFlow(cfg: Engine.Config, s: Registers, i: Inputs, t: Registers)
    requires cfg.Valid() && CommandFits(s) && CountFits(cfg, s) && ScalarOnly(s) && FlowEdge(cfg, s, i, t)
    ensures t.state.ScWrite? ==>
      (s.state.IssueWrite? && t.cnt == WRITE_WAIT) || (s.state.ScWrite? && t.cnt == s.cnt - 1)
    ensures t.state.ScwrData? ==>
      (s.state.ScWrite? && s.cnt == 0 && t.cnt == 7) || (s.state.ScwrData? && t.cnt == s.cnt - 1)
    ensures s.state.ScWrite? ==> t.state.ScWrite? || t.state.ScwrData?
    ensures s.state.ScwrData? && s.cnt > 0 ==> t.state.ScwrData?
    ensures s.state.ScwrData? ==> s.cnt <= 7
  {
  }
}
