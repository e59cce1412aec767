/** What every reachable state of the protocol engine satisfies, whatever its inputs do. */
module EngineInvariant {
  import opened DdrBus
  import opened ProtocolEngine

  // ---------------------------------------------------------------- an edge, seen through some of the registers

  predicate CommandEdge(s: Registers, i: Inputs, t: Registers) {
    && t.next == NextTarget(s)
    && t.cmd == (if Latches(s) then i.cmd else s.cmd)
    && t.sz == (if Latches(s) then i.sz else s.sz)
    && t.blk == NextBlk(s, i)
    && t.fromBlw == NextFromBlw(s)
  }

  predicate FlowEdge(cfg: Config, s: Registers, i: Inputs, t: Registers) {
    && t.state == NextState(cfg, s, i)
    && t.cnt == NextCnt(cfg, s, i)
  }

  predicate TimerEdge(cfg: Config, s: Registers, i: Inputs, t: Registers) {
    && t.refCnt == NextRefCnt(cfg, s, i)
    && t.actGap == NextActGap(s, i)
    && t.haveAct == (s.haveAct || Latches(s) || EntersBlockAct(s, i))
    && t.burst == NextBurst(s)
  }

  predicate PowerEdge(cfg: Config, s: Registers, i: Inputs, t: Registers) {
    && t.selfRefresh == NextSelfRefresh(s, i)
    && t.selfRefreshOut == s.selfRefresh
    && t.powerDown == NextPowerDown(s, i)
    && t.idleQuiet == NextIdleQuiet(cfg, s, i)
    && t.autoReq == NextAutoReq(cfg, s, i)
    && t.dllInProgress == (StartsDll(cfg, s, i) || (s.dllInProgress && !(s.state.DllTdllk? && s.dllCnt == 0)))
    && t.dllCnt == NextDllCnt(cfg, s)
    && t.dllBusy == s.dllInProgress
  }

  predicate PinEdge(cfg: Config, s: Registers, t: Registers) {
    t.bus == NextBus(s) && t.ba == NextBa(s) && t.a == NextA(cfg, s)
  }

  predicate DataEdge(s: Registers, i: Inputs, t: Registers) {
    && t.addr == (if Latches(s) then i.addr else s.addr)
    && t.row == (if Latches(s) then RowOf(i.addr) else s.row)
    && t.bank == (if Latches(s) then BankOf(i.addr) else s.bank)
    && t.col == (if Latches(s) then ColOf(i.addr) else s.col)
    && t.getData == TakesData(s)
    && t.putReturn == PutsReturn(s)
    && t.addrReturn == NextAddrReturn(s)
  }

  predicate DriveEdge(cfg: Config, s: Registers, i: Inputs, t: Registers) {
    && t.getCmd == (s.state.Idle? && Arbitrate(cfg, s, i) == ToCommand)
    && t.dq == (if TakesData(s) then i.din else s.dq)
    && t.driveDq == DrivesDq(s)
  }

  lemma StepEdges(cfg: Config, s: Registers, i: Inputs)
    requires !i.reset
    ensures FlowEdge(cfg, s, i, Step(cfg, s, i)) && CommandEdge(s, i, Step(cfg, s, i))
    ensures TimerEdge(cfg, s, i, Step(cfg, s, i)) && PowerEdge(cfg, s, i, Step(cfg, s, i))
    ensures PinEdge(cfg, s, Step(cfg, s, i)) && DataEdge(s, i, Step(cfg, s, i)) && DriveEdge(cfg, s, i, Step(cfg, s, i))
  {
  }

  // ---------------------------------------------------------------- the invariant

  predicate InDll(st: State) { st.DllPre? || st.DllTrp? || st.DllMrs? || st.DllTmrd? || st.DllTdllk? }

  /** The longest count a state can be entered with. */
  function MaxCount(cfg: Config, s: Registers): int {
    match s.state
    case GetCmd => GETCMD_WAIT
    case Activate => ACT_HOLD
    case BlrAct => ACT_HOLD
    case BlwAct => ACT_HOLD
    case WaitTrcd => RCD_WAIT
    case ScRead => cfg.readWait
    case BlrRead => cfg.readWait
    case ScrEnd => 8
    case ScWrite => WRITE_WAIT
    case BlwWrite => WRITE_WAIT
    case ScwrData => if s.fromBlw then BlockDataWait(s.sz) else 7
    case ScwrEnd => WRITE_TAIL
    case RPre => PRE_HOLD
    case SrefPre => PRE_HOLD
    case PdPre => PRE_HOLD
    case DllPre => PRE_HOLD
    case RNop => RP_WAIT
    case SrefTrp => RP_WAIT
    case PdTrp => RP_WAIT
    case DllTrp => RP_WAIT
    case RRef => REF_HOLD
    case RIdl => RFC_WAIT
    case SrefEnter => 1
    case SrefExitWait => cfg.exitSelfRefresh
    case PdExitWait => cfg.exitPowerDown
    case DllMrs => 1
    case DllTmrd => MRD_WAIT
    case _ => 127
  }

  /** A state is only visited on behalf of the commands it belongs to. */
  predicate CommandFits(s: Registers) {
    match s.state
    case WaitTrcd =>
      || (s.next.IssueRead? && s.cmd == CODE_SCR)
      || (s.next.IssueWrite? && s.cmd == CODE_SCW)
      || (s.next.BlrIssue? && s.cmd == CODE_BLR && s.blk == 0)
      || (s.next.BlwIssue? && s.cmd == CODE_BLW && s.blk == 0)
    case IssueRead => s.cmd == CODE_SCR
    case ScRead => s.cmd == CODE_SCR
    case ScrEnd => s.cmd == CODE_SCR
    case IssueWrite => s.cmd == CODE_SCW
    case ScWrite => s.cmd == CODE_SCW
    case BlrAct => s.cmd == CODE_BLR && s.blk == 0
    case BlrIssue => s.cmd == CODE_BLR && s.blk == 0
    case BlrRead => s.cmd == CODE_BLR && s.blk == 0
    case ScrNlsn => s.cmd == CODE_BLR && s.blk == 0
    case BlwAct => s.cmd == CODE_BLW && s.blk == 0
    case BlwIssue => s.cmd == CODE_BLW && 0 <= s.blk <= s.sz
    case BlwWrite => s.cmd == CODE_BLW && 0 <= s.blk <= s.sz
    case ScwrData => if s.fromBlw then s.cmd == CODE_BLW && 0 <= s.blk <= s.sz else s.cmd == CODE_SCW
    case ScwrEnd => if s.fromBlw then s.cmd == CODE_BLW && 0 <= s.blk <= s.sz else s.cmd == CODE_SCW
    case ScrLsn => false
    case ScrDnth => false
    case _ => true
  }

  predicate CountFits(cfg: Config, s: Registers) {
    0 <= s.cnt <= MaxCount(cfg, s) && (s.state.RRef? ==> s.cnt == 1)
  }

  /** The ACT gap counter restarts with every activation. */
  predicate ActSeen(s: Registers) {
    match s.state
    case Activate => s.haveAct && (s.cnt == 1 ==> s.actGap == 0) && (s.cnt == 0 ==> s.actGap > 0)
    case WaitTrcd => s.haveAct
    case BlrAct => s.haveAct
    case BlwAct => s.haveAct
    case _ => true
  }

  predicate TimersFit(cfg: Config, s: Registers) {
    && 0 <= s.refCnt <= cfg.refreshInit
    && 0 <= s.actGap <= ACT_GAP_MAX
    && 0 <= s.burst <= 7
    && ActSeen(s)
  }

  predicate PowerFits(s: Registers) {
    && (s.selfRefresh <==> s.state.SrefIdle? || (s.state.SrefEnter? && s.cnt == 0))
    && (s.powerDown <==> s.state.PdIdle?)
  }

  predicate DllFits(cfg: Config, s: Registers) {
    && (InDll(s.state) ==> s.dllInProgress)
    && (s.state.DllTdllk? ==> 0 <= s.dllCnt <= cfg.dllLock)
  }

  /** States that leave the command lines alone find the device deselected. */
  predicate BusHeld(s: Registers) {
    s.state.ScrEnd? || s.state.ScwrEnd? || s.state.ScrNlsn? ==> s.bus == DESELECT
  }

  predicate Inv(cfg: Config, s: Registers) {
    CommandFits(s) && CountFits(cfg, s) && TimersFit(cfg, s) && PowerFits(s) && DllFits(cfg, s) && BusHeld(s)
  }

  // ---------------------------------------------------------------- the arrows of the state machine

  predicate Arrow(a: State, b: State) {
    a == b || b.Idle? ||
    match a
    case Idle => b.SrefPre? || b.DllPre? || b.PdPre? || b.RPre? || b.GetCmd?
    case GetCmd => b.Activate?
    case Activate => b.WaitTrcd? || b.BlrAct? || b.BlwAct?
    case BlrAct => b.WaitTrcd?
    case BlwAct => b.WaitTrcd?
    case WaitTrcd => b.IssueRead? || b.IssueWrite? || b.BlrIssue? || b.BlwIssue?
    case IssueRead => b.ScRead?
    case ScRead => b.ScrEnd?
    case BlrIssue => b.BlrRead?
    case BlrRead => b.ScrNlsn?
    case IssueWrite => b.ScWrite?
    case ScWrite => b.ScwrData?
    case BlwIssue => b.BlwWrite?
    case BlwWrite => b.ScwrData?
    case ScwrData => b.ScwrEnd?
    case ScwrEnd => b.BlwIssue?
    case RPre => b.RNop?
    case RNop => b.RRef?
    case RRef => b.RIdl?
    case SrefPre => b.SrefTrp?
    case SrefTrp => b.SrefEnter?
    case SrefEnter => b.SrefIdle?
    case SrefIdle => b.SrefExitWait?
    case PdPre => b.PdTrp?
    case PdTrp => b.PdIdle?
    case PdIdle => b.PdExitWait?
    case DllPre => b.DllTrp?
    case DllTrp => b.DllMrs?
    case DllMrs => b.DllTmrd?
    case DllTmrd => b.DllTdllk?
    case _ => false
  }

  lemma CommandFollowsArrow(cfg: Config, s: Registers, i: Inputs, t: Registers)
    requires CommandFits(s) && t.state == NextState(cfg, s, i) && (Opens(s.state) || Writes(s.state))
    ensures Arrow(s.state, t.state)
  {
  }

  lemma OtherFollowsArrow(cfg: Config, s: Registers, i: Inputs, t: Registers)
    requires CommandFits(s) && t.state == NextState(cfg, s, i) && !Opens(s.state) && !Writes(s.state)
    ensures Arrow(s.state, t.state)
  {
  }

  lemma EdgeFollowsArrow(cfg: Config, s: Registers, i: Inputs, t: Registers)
    requires CommandFits(s) && t.state == NextState(cfg, s, i)
    ensures Arrow(s.state, t.state)
  {
    if Opens(s.state) || Writes(s.state) {
      CommandFollowsArrow(cfg, s, i, t);
    } else {
      OtherFollowsArrow(cfg, s, i, t);
    }
  }

  /** The states in which a command opens its row. */
  predicate Opens(st: State) {
    match st
    case GetCmd => true
    case Activate => true
    case BlrAct => true
    case BlwAct => true
    case WaitTrcd => true
    case _ => false
  }

  lemma OpeningKeepsCommandFits(cfg: Config, s: Registers, i: Inputs, t: Registers)
    requires CommandFits(s) && FlowEdge(cfg, s, i, t) && CommandEdge(s, i, t) && Opens(s.state)
    ensures CommandFits(t)
  {
  }

  lemma OtherKeepsCommandFits(cfg: Config, s: Registers, i: Inputs, t: Registers)
    requires CommandFits(s) && FlowEdge(cfg, s, i, t) && CommandEdge(s, i, t) && !Opens(s.state)
    ensures CommandFits(t)
  {
  }

  lemma EdgeKeepsCommandFits(cfg: Config, s: Registers, i: Inputs, t: Registers)
    requires CommandFits(s) && FlowEdge(cfg, s, i, t) && CommandEdge(s, i, t)
    ensures CommandFits(t)
  {
    if Opens(s.state) {
      OpeningKeepsCommandFits(cfg, s, i, t);
    } else {
      OtherKeepsCommandFits(cfg, s, i, t);
    }
  }

  lemma OpeningKeepsCount(cfg: Config, s: Registers, i: Inputs, t: Registers)
    requires cfg.Valid() && CountFits(cfg, s) && CommandFits(s) && FlowEdge(cfg, s, i, t) && Opens(s.state)
    ensures CountFits(cfg, t)
  {
  }

  /** The states of a write burst. */
  predicate Writes(st: State) {
    match st
    case IssueWrite => true
    case ScWrite => true
    case ScwrData => true
    case ScwrEnd => true
    case BlwIssue => true
    case BlwWrite => true
    case _ => false
  }

  lemma WriteKeepsCount(cfg: Config, s: Registers, i: Inputs, t: Registers)
    requires CountFits(cfg, s) && CommandFits(s) && Writes(s.state)
    requires FlowEdge(cfg, s, i, t) && t.fromBlw == NextFromBlw(s) && t.sz == s.sz
    ensures CountFits(cfg, t)
  {
  }

  /** The states of a read burst. */
  predicate Reads(st: State) {
    match st
    case IssueRead => true
    case ScRead => true
    case ScrEnd => true
    case BlrIssue => true
    case BlrRead => true
    case ScrNlsn => true
    case _ => false
  }

  lemma ReadKeepsCount(cfg: Config, s: Registers, i: Inputs, t: Registers)
    requires cfg.Valid() && CountFits(cfg, s) && CommandFits(s) && Reads(s.state) && FlowEdge(cfg, s, i, t)
    ensures CountFits(cfg, t)
  {
  }

  lemma OtherKeepsCount(cfg: Config, s: Registers, i: Inputs, t: Registers)
    requires cfg.Valid() && CountFits(cfg, s) && CommandFits(s) && !Opens(s.state) && !Writes(s.state) && !Reads(s.state)
    requires FlowEdge(cfg, s, i, t)
    ensures CountFits(cfg, t)
  {
  }

  lemma EdgeKeepsCount(cfg: Config, s: Registers, i: Inputs, t: Registers)
    requires cfg.Valid() && CountFits(cfg, s) && CommandFits(s)
    requires FlowEdge(cfg, s, i, t) && t.fromBlw == NextFromBlw(s) && t.sz == (if Latches(s) then i.sz else s.sz)
    ensures CountFits(cfg, t)
  {
    if Opens(s.state) {
      OpeningKeepsCount(cfg, s, i, t);
    } else if Writes(s.state) {
      WriteKeepsCount(cfg, s, i, t);
    } else if Reads(s.state) {
      ReadKeepsCount(cfg, s, i, t);
    } else {
      OtherKeepsCount(cfg, s, i, t);
    }
  }

  lemma EdgeKeepsActSeen(cfg: Config, s: Registers, i: Inputs, t: Registers)
    requires TimersFit(cfg, s) && CommandFits(s) && CountFits(cfg, s)
    requires FlowEdge(cfg, s, i, t) && t.actGap == NextActGap(s, i) && t.haveAct == (s.haveAct || Latches(s) || EntersBlockAct(s, i))
    ensures ActSeen(t)
  {
  }

  lemma EdgeKeepsTimers(cfg: Config, s: Registers, i: Inputs, t: Registers)
    requires cfg.Valid() && TimersFit(cfg, s) && FlowEdge(cfg, s, i, t) && TimerEdge(cfg, s, i, t)
    requires CommandFits(s) && CountFits(cfg, s)
    ensures TimersFit(cfg, t)
  {
    EdgeKeepsActSeen(cfg, s, i, t);
  }

  lemma EdgeKeepsPower(cfg: Config, s: Registers, i: Inputs, t: Registers)
    requires cfg.Valid() && PowerFits(s) && CountFits(cfg, s) && CommandFits(s)
    requires FlowEdge(cfg, s, i, t) && t.selfRefresh == NextSelfRefresh(s, i) && t.powerDown == NextPowerDown(s, i)
    ensures PowerFits(t)
  {
  }

  lemma OnlyIdleStartsDll(a: State, b: State)
    requires Arrow(a, b) && !a.Idle? && !InDll(a)
    ensures !InDll(b)
  {
  }

  lemma EdgeKeepsDll(cfg: Config, s: Registers, i: Inputs, t: Registers)
    requires cfg.Valid() && DllFits(cfg, s) && CommandFits(s)
    requires t.state == NextState(cfg, s, i) && PowerEdge(cfg, s, i, t)
    ensures DllFits(cfg, t)
  {
    if !s.state.Idle? && !InDll(s.state) {
      EdgeFollowsArrow(cfg, s, i, t);
      OnlyIdleStartsDll(s.state, t.state);
    }
  }

  lemma EdgeKeepsBus(cfg: Config, s: Registers, i: Inputs, t: Registers)
    requires BusHeld(s) && CommandFits(s) && t.state == NextState(cfg, s, i) && t.bus == NextBus(s)
    ensures BusHeld(t)
  {
  }

  lemma StepKeepsInv(cfg: Config, s: Registers, i: Inputs)
    requires cfg.Valid() && Inv(cfg, s) && !i.reset
    ensures Inv(cfg, Step(cfg, s, i))
  {
    var t := Step(cfg, s, i);
    StepEdges(cfg, s, i);
    EdgeKeepsCommandFits(cfg, s, i, t);
    EdgeKeepsCount(cfg, s, i, t);
    EdgeKeepsTimers(cfg, s, i, t);
    EdgeKeepsPower(cfg, s, i, t);
    EdgeKeepsDll(cfg, s, i, t);
    EdgeKeepsBus(cfg, s, i, t);
  }

  lemma ResetKeepsInv(cfg: Config, s: Registers)
    requires cfg.Valid()
    ensures Inv(cfg, Reset(cfg, s))
  {
  }
}
