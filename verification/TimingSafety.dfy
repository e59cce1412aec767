/** The protocol engine never breaks a timing rule of the pin-level monitor. */
module TimingSafety {
  import opened DdrBus
  import opened ProtocolEngine
  import opened EngineInvariant
  import opened TimingChecker
  import opened Phy

  // ---------------------------------------------------------------- pins after an edge

  /** What an edge out of a state puts on the pins. */
  function CommandOf(st: State): Command {
    match st
    case Activate => CmdAct
    case BlrAct => CmdAct
    case BlwAct => CmdAct
    case IssueRead => CmdRead
    case BlrIssue => CmdRead
    case IssueWrite => CmdWrite
    case BlwIssue => CmdWrite
    case RPre => CmdPre
    case SrefPre => CmdPre
    case PdPre => CmdPre
    case DllPre => CmdPre
    case RRef => CmdRef
    case _ => CmdNop
  }

  lemma PinsShowCommand(cfg: Config, s: Registers, i: Inputs)
    requires Inv(cfg, s) && !i.reset
    ensures Decode(EnginePins(Step(cfg, s, i))) == CommandOf(s.state)
  {
    StepEdges(cfg, s, i);
    EdgeShowsCommand(s, i, Step(cfg, s, i));
  }

  lemma EdgeShowsCommand(s: Registers, i: Inputs, t: Registers)
    requires PowerFits(s) && BusHeld(s) && CommandFits(s)
    requires t.bus == NextBus(s) && t.selfRefreshOut == s.selfRefresh && t.powerDown == NextPowerDown(s, i)
    ensures Decode(EnginePins(t)) == CommandOf(s.state)
  {
  }

  // ---------------------------------------------------------------- lower bounds on the monitor's timers

  /** Cycles since the last activation of any open row. */
  function ActAge(s: Registers): int {
    match s.state
    case WaitTrcd => 4 - s.cnt
    case IssueRead => 5
    case BlrIssue => 5
    case IssueWrite => 5
    case BlwIssue => 5
    case BlwWrite => 5
    case ScwrData => 5
    case ScwrEnd => 5
    case ScWrite => 5
    case _ => 0
  }

  /** Cycles since the last precharge. Tight: an abandoned low-power entry leads straight to ACTIVATE. */
  function PreAge(s: Registers): int {
    match s.state
    case GetCmd => 3 - s.cnt
    case Activate => if s.cnt == 1 then TRP_MIN else 0
    case _ => 0
  }

  function RefAge(s: Registers): int {
    if s.state.RIdl? then RFC_WAIT - s.cnt else TRFC_MIN
  }

  predicate BanksRested(s: Registers, m: Monitor)
    requires m.Valid()
  {
    forall b :: 0 <= b < 4 ==>
      && 0 <= m.banks[b].sinceAct <= BYTE_MAX && 0 <= m.banks[b].sincePre <= BYTE_MAX
      && (m.banks[b].rowActive ==> m.banks[b].sinceAct >= ActAge(s))
      && m.banks[b].sincePre >= PreAge(s)
  }

  predicate RefreshRested(s: Registers, m: Monitor) {
    0 <= m.sinceRef <= HALF_MAX && (m.haveRef ==> m.sinceRef >= RefAge(s))
  }

  /** The edge detectors of the monitor. */
  predicate PrevFits(s: Registers, m: Monitor) {
    && (s.state.GetCmd? ==> m.prev != CmdAct)
    && (s.state.Activate? ==> (m.prev == CmdAct <==> s.cnt == 0))
    && (s.state.BlrAct? || s.state.BlwAct? ==> m.prev == CmdAct)
    && (s.state.RRef? ==> m.prev != CmdRef)
  }

  /** The engine's ACT gap counter never runs ahead of the monitor's timer. */
  predicate GapFits(s: Registers, m: Monitor) {
    && 0 <= m.sinceLastAct <= HALF_MAX
    && (m.haveAct ==>
      && s.haveAct
      && s.actGap - 1 <= m.sinceLastAct < m.cycle - m.stamp3
      && (s.state.Activate? && s.cnt == 1 ==> m.sinceLastAct >= ACT_GAP_MIN))
  }

  predicate StampsSpaced(m: Monitor) {
    && 0 <= m.stamp0 && 0 <= m.stamp1 && 0 <= m.stamp2 && 0 <= m.stamp3
    && (m.stamp0 > 0 ==> m.stamp0 + ACT_GAP_MIN < m.stamp1)
    && (m.stamp1 > 0 ==> m.stamp1 + ACT_GAP_MIN < m.stamp2)
    && (m.stamp2 > 0 ==> m.stamp2 + ACT_GAP_MIN < m.stamp3)
    && (m.stamp3 > 0 <==> m.haveAct)
    && m.cycle > 0
  }

  predicate Rested(s: Registers, m: Monitor) {
    m.Valid() && BanksRested(s, m) && PrevFits(s, m) && GapFits(s, m) && StampsSpaced(m)
  }

  // ---------------------------------------------------------------- one edge keeps them

  /** A new row restarts its age, any other edge adds one cycle to it at the most. */
  lemma ActAgeMoves(cfg: Config, s: Registers, i: Inputs, t: Registers)
    requires CommandFits(s) && CountFits(cfg, s) && FlowEdge(cfg, s, i, t)
    ensures ActAge(t) <= if s.state.Activate? && s.cnt == 1 then 0 else ActAge(s) + 1
    ensures ActAge(t) <= 5
  {
  }

  lemma PreAgeMoves(cfg: Config, s: Registers, i: Inputs, t: Registers)
    requires CommandFits(s) && CountFits(cfg, s) && FlowEdge(cfg, s, i, t)
    ensures PreAge(t) <= if CommandOf(s.state) == CmdPre then 0 else PreAge(s) + 1
    ensures PreAge(t) <= TRP_MIN
  {
  }

  lemma EdgeKeepsBanks(cfg: Config, s: Registers, i: Inputs, t: Registers, m: Monitor, p: Pins)
    requires CommandFits(s) && CountFits(cfg, s) && cfg.Valid() && m.Valid() && BanksRested(s, m)
    requires FlowEdge(cfg, s, i, t)
    requires Decode(p) == CommandOf(s.state) && (ActPulse(m, p) <==> s.state.Activate? && s.cnt == 1)
    ensures BanksRested(t, Observe(m, p))
  {
    ActAgeMoves(cfg, s, i, t);
    PreAgeMoves(cfg, s, i, t);
    var n := Observe(m, p);
    forall b | 0 <= b < 4
      ensures 0 <= n.banks[b].sinceAct <= BYTE_MAX && 0 <= n.banks[b].sincePre <= BYTE_MAX
      ensures n.banks[b].rowActive ==> n.banks[b].sinceAct >= ActAge(t)
      ensures n.banks[b].sincePre >= PreAge(t)
    {
      assert n.banks[b] == NextBank(m.banks[b], b == p.ba, ActPulse(m, p), Decode(p) == CmdPre);
    }
  }

  lemma EdgeKeepsRefresh(cfg: Config, s: Registers, i: Inputs, t: Registers, m: Monitor, p: Pins)
    requires CommandFits(s) && CountFits(cfg, s) && cfg.Valid() && m.Valid() && RefreshRested(s, m) && PrevFits(s, m)
    requires FlowEdge(cfg, s, i, t) && Decode(p) == CommandOf(s.state)
    ensures RefreshRested(t, Observe(m, p))
  {
  }

  lemma EdgeKeepsPrev(cfg: Config, s: Registers, i: Inputs, t: Registers, m: Monitor, p: Pins)
    requires CommandFits(s) && CountFits(cfg, s) && cfg.Valid() && m.Valid()
    requires FlowEdge(cfg, s, i, t) && Decode(p) == CommandOf(s.state)
    ensures PrevFits(t, Observe(m, p))
  {
  }

  lemma EdgeKeepsGap(cfg: Config, s: Registers, i: Inputs, t: Registers, m: Monitor, p: Pins)
    requires CommandFits(s) && CountFits(cfg, s) && TimersFit(cfg, s) && cfg.Valid()
    requires m.Valid() && GapFits(s, m) && PrevFits(s, m) && StampsSpaced(m)
    requires FlowEdge(cfg, s, i, t) && TimerEdge(cfg, s, i, t) && Decode(p) == CommandOf(s.state)
    ensures GapFits(t, Observe(m, p)) && StampsSpaced(Observe(m, p))
  {
  }

  lemma StepKeepsRested(cfg: Config, s: Registers, i: Inputs, m: Monitor)
    requires cfg.Valid() && Inv(cfg, s) && Rested(s, m) && !i.reset
    ensures var t := Step(cfg, s, i);
      && Rested(t, Observe(m, EnginePins(t)))
      && (RefreshRested(s, m) ==> RefreshRested(t, Observe(m, EnginePins(t))))
  {
    var t := Step(cfg, s, i);
    var p := EnginePins(t);
    StepEdges(cfg, s, i);
    PinsShowCommand(cfg, s, i);
    EdgeKeepsBanks(cfg, s, i, t, m, p);
    if RefreshRested(s, m) {
      EdgeKeepsRefresh(cfg, s, i, t, m, p);
    }
    EdgeKeepsPrev(cfg, s, i, t, m, p);
    EdgeKeepsGap(cfg, s, i, t, m, p);
  }

  // ---------------------------------------------------------------- the rules that hold for every command stream

  /** The 32-bit stamps of two activations at least 2^32 cycles apart look less than tFAW apart. */
  predicate StampAliased(m: Monitor) {
    && m.stamp0 % CYCLE_WRAP != 0
    && m.cycle - m.stamp0 >= CYCLE_WRAP
    && (m.cycle - m.stamp0) % CYCLE_WRAP < TFAW_MIN
  }

  /** The activation four before this one is at least four full ACT gaps back. */
  lemma FawWindow(s: Registers, m: Monitor)
    requires StampsSpaced(m) && GapFits(s, m) && s.state.Activate? && s.cnt == 1 && m.stamp0 > 0
    ensures m.cycle - m.stamp0 >= 4 * (ACT_GAP_MIN + 1)
  {
  }

  lemma FawBreaksOnlyByAlias(s: Registers, m: Monitor, p: Pins)
    requires StampsSpaced(m) && GapFits(s, m) && (ActPulse(m, p) ==> s.state.Activate? && s.cnt == 1)
    ensures BreaksTfaw(m, p) <==> ActPulse(m, p) && StampAliased(m)
  {
    if ActPulse(m, p) && m.stamp0 > 0 {
      FawWindow(s, m);
    }
  }

  /** tRCD, tRP and tRRD hold for every command code, and tRFC if the last initial refresh is far enough back. */
  lemma UnconditionalRules(cfg: Config, s: Registers, i: Inputs, m: Monitor)
    requires cfg.Valid() && Inv(cfg, s) && Rested(s, m) && !i.reset
    ensures var p := EnginePins(Step(cfg, s, i));
      && !BreaksTrcd(m, p) && !BreaksTrp(m, p) && !BreaksTrrd(m, p) && (RefreshRested(s, m) ==> !BreaksTrfc(m, p))
      && (BreaksTfaw(m, p) <==> s.state.Activate? && s.cnt == 1 && StampAliased(m))
  {
    var p := EnginePins(Step(cfg, s, i));
    PinsShowCommand(cfg, s, i);
    FawBreaksOnlyByAlias(s, m, p);
  }

  // ---------------------------------------------------------------- tRAS

  /** The shortest read waits for which a scalar and a block read outlast tRAS. */
  const SCALAR_READ_WAIT_MIN := 3
  const BLOCK_READ_WAIT_MIN := 4

  /** The edges that bring the engine back to IDLE before the row has been open for tRAS. */
  predicate EarlyReturn(cfg: Config, s: Registers, i: Inputs) {
    || Drops(s, i)
    || (s.state.ScrEnd? && s.cnt == 0 && cfg.readWait < SCALAR_READ_WAIT_MIN)
    || (s.state.ScrNlsn? && cfg.readWait < BLOCK_READ_WAIT_MIN)
  }

  /** Cycles any open row has been open, as long as no edge returns early. */
  function RowAge(cfg: Config, s: Registers): int {
    match s.state
    case GetCmd => 0
    case Activate => if s.cnt == 1 then 0 else s.actGap - 1
    case BlrAct => ACT_GAP_MIN + 1 - s.cnt
    case BlwAct => ACT_GAP_MIN + 1 - s.cnt
    case WaitTrcd => (if s.next.BlrIssue? || s.next.BlwIssue? then 11 else 4) - s.cnt
    case IssueRead => 5
    case IssueWrite => 5
    case BlrIssue => 12
    case BlwIssue => 12
    case ScRead => 6 + cfg.readWait - s.cnt
    case ScrEnd => 15 + cfg.readWait - s.cnt
    case BlrRead => 13 + cfg.readWait - s.cnt
    case ScrNlsn => 14 + cfg.readWait
    case ScWrite => 18 - s.cnt
    case BlwWrite => 18 - s.cnt
    case RPre => TRAS_MIN
    case SrefPre => TRAS_MIN
    case PdPre => TRAS_MIN
    case DllPre => TRAS_MIN
    case _ => TRAS_MIN - 1
  }

  predicate RowsAged(cfg: Config, s: Registers, m: Monitor)
    requires m.Valid()
  {
    forall b :: 0 <= b < 4 ==>
      0 <= m.banks[b].activeTime <= BYTE_MAX && (m.banks[b].rowActive ==> m.banks[b].activeTime >= RowAge(cfg, s))
  }

  lemma OpeningRowAge(cfg: Config, s: Registers, i: Inputs, t: Registers)
    requires CommandFits(s) && CountFits(cfg, s) && TimersFit(cfg, s) && !EarlyReturn(cfg, s, i)
    requires FlowEdge(cfg, s, i, t) && CommandEdge(s, i, t) && TimerEdge(cfg, s, i, t)
    requires s.state.Activate? || s.state.BlrAct? || s.state.BlwAct? || s.state.WaitTrcd?
    ensures RowAge(cfg, t) <= if s.state.Activate? && s.cnt == 1 then 0 else RowAge(cfg, s) + 1
    ensures RowAge(cfg, t) < BYTE_MAX
  {
  }

  lemma ReadingRowAge(cfg: Config, s: Registers, i: Inputs, t: Registers)
    requires cfg.Valid() && CommandFits(s) && CountFits(cfg, s) && !EarlyReturn(cfg, s, i) && FlowEdge(cfg, s, i, t) && Reads(s.state)
    ensures RowAge(cfg, t) <= RowAge(cfg, s) + 1 && RowAge(cfg, t) < BYTE_MAX
  {
  }

  lemma WritingRowAge(cfg: Config, s: Registers, i: Inputs, t: Registers)
    requires CommandFits(s) && CountFits(cfg, s) && FlowEdge(cfg, s, i, t) && Writes(s.state)
    ensures RowAge(cfg, t) <= RowAge(cfg, s) + 1 && RowAge(cfg, t) < BYTE_MAX
  {
  }

  lemma OtherRowAge(cfg: Config, s: Registers, i: Inputs, t: Registers)
    requires CommandFits(s) && CountFits(cfg, s) && FlowEdge(cfg, s, i, t) && t.actGap == NextActGap(s, i)
    requires !s.state.Activate? && !s.state.BlrAct? && !s.state.BlwAct? && !s.state.WaitTrcd?
    requires !Reads(s.state) && !Writes(s.state)
    ensures RowAge(cfg, t) <= RowAge(cfg, s) + 1 && RowAge(cfg, t) < BYTE_MAX
  {
  }

  lemma RowAgeMoves(cfg: Config, s: Registers, i: Inputs, t: Registers)
    requires cfg.Valid() && CommandFits(s) && CountFits(cfg, s) && TimersFit(cfg, s) && !EarlyReturn(cfg, s, i)
    requires FlowEdge(cfg, s, i, t) && CommandEdge(s, i, t) && TimerEdge(cfg, s, i, t)
    ensures RowAge(cfg, t) <= if s.state.Activate? && s.cnt == 1 then 0 else RowAge(cfg, s) + 1
    ensures RowAge(cfg, t) < BYTE_MAX
  {
    if s.state.Activate? || s.state.BlrAct? || s.state.BlwAct? || s.state.WaitTrcd? {
      OpeningRowAge(cfg, s, i, t);
    } else if Reads(s.state) {
      ReadingRowAge(cfg, s, i, t);
    } else if Writes(s.state) {
      WritingRowAge(cfg, s, i, t);
    } else {
      OtherRowAge(cfg, s, i, t);
    }
  }

  lemma EdgeKeepsRows(cfg: Config, s: Registers, i: Inputs, t: Registers, m: Monitor, p: Pins)
    requires CommandFits(s) && CountFits(cfg, s) && TimersFit(cfg, s) && cfg.Valid() && m.Valid() && RowsAged(cfg, s, m)
    requires !EarlyReturn(cfg, s, i)
    requires FlowEdge(cfg, s, i, t) && CommandEdge(s, i, t) && TimerEdge(cfg, s, i, t)
    requires Decode(p) == CommandOf(s.state) && (ActPulse(m, p) <==> s.state.Activate? && s.cnt == 1)
    ensures RowsAged(cfg, t, Observe(m, p))
  {
    RowAgeMoves(cfg, s, i, t);
    var n := Observe(m, p);
    forall b | 0 <= b < 4
      ensures 0 <= n.banks[b].activeTime <= BYTE_MAX
      ensures n.banks[b].rowActive ==> n.banks[b].activeTime >= RowAge(cfg, t)
    {
      assert n.banks[b] == NextBank(m.banks[b], b == p.ba, ActPulse(m, p), Decode(p) == CmdPre);
    }
  }

  lemma StepKeepsRows(cfg: Config, s: Registers, i: Inputs, m: Monitor)
    requires cfg.Valid() && Inv(cfg, s) && Rested(s, m) && RowsAged(cfg, s, m) && !i.reset
    requires !EarlyReturn(cfg, s, i)
    ensures var p := EnginePins(Step(cfg, s, i));
      RowsAged(cfg, Step(cfg, s, i), Observe(m, p)) && !BreaksTras(m, p)
  {
    var t := Step(cfg, s, i);
    StepEdges(cfg, s, i);
    PinsShowCommand(cfg, s, i);
    EdgeKeepsRows(cfg, s, i, t, m, EnginePins(t));
  }
}
