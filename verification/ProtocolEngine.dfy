/**
 * The DDR2 protocol engine: one clocked finite-state machine that arbitrates between
 * self-refresh, runtime DLL changes, power-down, periodic refresh and host commands.
 *
 * `Registers` holds the flip-flops, `Step` is one clock edge. All right-hand sides read the
 * registers before the edge; the last assignment to a register wins.
 */
module ProtocolEngine {
  import opened DdrBus

  // ---------------------------------------------------------------- parameters

  const RCD_WAIT := 3
  const GETCMD_WAIT := 2
  const ACT_HOLD := 1
  const WRITE_WAIT := 12
  const WRITE_TAIL := 17
  const PRE_HOLD := 1
  const RP_WAIT := 7
  const REF_HOLD := 1
  const RFC_WAIT := 99
  const MRD_WAIT := 3
  const ACT_GAP_MIN := 6
  const ACT_GAP_MAX := 63

  /** Elaboration-time parameters, already cut to the width of the register they load. */
  datatype Config = Config(
    readWait: int,      // cycles spent waiting for read data, minus one
    refreshInit: int,   // reload value of the refresh counter
    refreshUrgent: int, // below this value a refresh is due
    exitSelfRefresh: int,
    exitPowerDown: int,
    autoIdle: int,      // quiet cycles before automatic self-refresh
    dllLock: int,
    mrsDllOn: int,
    mrsDllOff: int
  ) {
    predicate Valid() {
      && 0 <= readWait < 64
      && 0 <= refreshInit < 4096
      && 0 <= refreshUrgent < 4096
      && 0 <= exitSelfRefresh < 128
      && 0 <= exitPowerDown < 128
      && 0 <= autoIdle < 4096
      && 0 <= dllLock < 65536
    }
  }

  /** The Verilog parameters are integers; each is truncated to its register's width. */
  function FromParameters(readLatency: int, refreshInit: int, refreshThreshold: int, txsr: int, txp: int,
                          autoIdle: int, tdllk: int): (cfg: Config)
    ensures cfg.Valid()
  {
    Config((readLatency - 2) % 64, refreshInit % 4096, refreshThreshold % 4096, txsr % 128, txp % 128,
           autoIdle % 4096, tdllk % 65536, 0x13, 0x13)
  }

  function DefaultConfig(): Config { FromParameters(24, 3900, 1600, 100, 32, 8000, 200) }

  // ---------------------------------------------------------------- registers

  const CODE_SCR := 1
  const CODE_SCW := 2
  const CODE_BLR := 3
  const CODE_BLW := 4

  type Code = c: int | 0 <= c < 8
  type Size = z: int | 0 <= z < 4
  type Address = a: int | 0 <= a < 0x200_0000

  /** The FSM codes. `ScrLsn`, `ScrNlsn` and `ScrDnth` have no arm of their own. */
  datatype State =
    | Idle | GetCmd | Activate | WaitTrcd
    | IssueRead | ScRead | ScrLsn | ScrNlsn | ScrDnth | ScrEnd
    | IssueWrite | ScWrite | ScwrData | ScwrEnd
    | BlrAct | BlrIssue | BlrRead
    | BlwAct | BlwIssue | BlwWrite
    | RPre | RNop | RRef | RIdl
    | SrefPre | SrefTrp | SrefEnter | SrefIdle | SrefExitWait
    | PdPre | PdTrp | PdIdle | PdExitWait
    | DllPre | DllTrp | DllMrs | DllTmrd | DllTdllk

  datatype Registers = Registers(
    state: State,
    cnt: int,
    refCnt: int,
    // the command being executed
    addr: Address, cmd: Code, sz: Size, row: int, bank: Bank, col: int,
    burst: int, blk: int, fromBlw: bool, next: State,
    // ACT spacing
    actGap: int, haveAct: bool,
    // low power and DLL
    selfRefresh: bool, idleQuiet: int, autoReq: bool,
    dllInProgress: bool, dllMode: bool, dllCnt: int,
    // registered outputs
    getCmd: bool, getData: bool, putReturn: bool, addrReturn: Address,
    bus: Bus, ba: Bank, a: int, dq: Word, driveDq: bool,
    dllBusy: bool, selfRefreshOut: bool, powerDown: bool
  )

  /** The engine's input wires in one cycle. */
  datatype Inputs = Inputs(
    reset: bool, ready: bool,
    selfRefreshReq: bool, selfRefreshExit: bool,
    powerDownReq: bool, powerDownExit: bool,
    dllReq: bool, dllMode: bool,
    cmdAvailable: bool, addr: Address, cmd: Code, sz: Size,
    din: Word, returnFill: int
  )

  // ---------------------------------------------------------------- address slicing

  function RowOf(a: Address): int { a / 0x1000 }
  function BankOf(a: Address): Bank { a / 8 % 4 }
  function ColOf(a: Address): int { a / 32 % 128 * 8 + a % 8 }

  /** READ/WRITE put nine column bits on A[9:1] and the precharge flag on A[0]. */
  function ColumnPins(col: int, flag: bool): int { col % 512 * 2 + if flag then 1 else 0 }

  function BlockColumn(col: int, blk: int): int { (col % 512 + 8 * blk) % 512 }

  // ---------------------------------------------------------------- wires

  predicate NeedRefresh(cfg: Config, s: Registers, i: Inputs) {
    i.ready && s.refCnt < cfg.refreshUrgent
  }

  /** Cycles minus one of the write data phase of a block write. */
  function BlockDataWait(sz: Size): int { 8 * sz + 7 }

  function ReturnThreshold(sz: Size): int { 56 - 8 * sz }

  predicate ActGapOk(s: Registers) { !s.haveAct || s.actGap >= ACT_GAP_MIN }

  // ---------------------------------------------------------------- what an edge decides

  predicate QuietIdle(cfg: Config, s: Registers, i: Inputs) {
    s.state.Idle? && i.ready && !NeedRefresh(cfg, s, i) && !s.selfRefresh && !s.powerDown && !i.cmdAvailable
  }

  /** What IDLE does next, in the order in which it looks. */
  datatype Choice = ToSelfRefresh | ToDll | ToPowerDown | ToRefresh | ToCommand | Stay

  function Arbitrate(cfg: Config, s: Registers, i: Inputs): Choice {
    if !i.ready || s.selfRefresh || s.powerDown then Stay
    else if i.selfRefreshReq || s.autoReq then ToSelfRefresh
    else if i.dllReq && !s.dllInProgress && !NeedRefresh(cfg, s, i) && !i.cmdAvailable then ToDll
    else if i.powerDownReq && !NeedRefresh(cfg, s, i) then ToPowerDown
    else if NeedRefresh(cfg, s, i) then ToRefresh
    else if i.cmdAvailable then ToCommand
    else Stay
  }

  /** The edge on which a command leaves the FIFO outputs and becomes the current one. */
  predicate Latches(s: Registers) { s.state.GetCmd? && s.cnt == 0 && ActGapOk(s) }

  /** The command just activated reaches no column command: no arm takes it, or it has no room. */
  predicate Drops(s: Registers, i: Inputs) {
    && s.state.Activate? && s.cnt == 0
    && !(s.cmd == CODE_SCR || s.cmd == CODE_SCW || s.cmd == CODE_BLW)
    && !(s.cmd == CODE_BLR && i.returnFill < ReturnThreshold(s.sz))
  }

  /** A block command holds its ACTIVATE until the ACT gap allows the second ACT state. */
  predicate EntersBlockAct(s: Registers, i: Inputs) {
    && s.state.Activate? && s.cnt == 0 && ActGapOk(s)
    && (s.cmd == CODE_BLW || (s.cmd == CODE_BLR && i.returnFill < ReturnThreshold(s.sz)))
  }

  /** A low-power entry sequence is called off. */
  predicate Aborts(s: Registers, i: Inputs) {
    match s.state
    case SrefPre => i.selfRefreshExit
    case SrefTrp => i.selfRefreshExit
    case SrefEnter => i.selfRefreshExit
    case PdPre => i.powerDownExit
    case PdTrp => i.powerDownExit
    case _ => false
  }

  /** Another 8-word sub-burst of the current block command follows. */
  predicate AnotherBlock(s: Registers) {
    s.cnt == 0 && s.blk < s.sz && ((s.state.ScwrEnd? && s.fromBlw) || (s.state.ScrEnd? && s.cmd == CODE_BLR))
  }

  // ---------------------------------------------------------------- next value, register by register

  function NextState(cfg: Config, s: Registers, i: Inputs): State {
    if Aborts(s, i) then Idle else
    match s.state
    case Idle =>
      (match Arbitrate(cfg, s, i)
       case ToSelfRefresh => SrefPre
       case ToDll => DllPre
       case ToPowerDown => PdPre
       case ToRefresh => RPre
       case ToCommand => GetCmd
       case Stay => Idle)
    case GetCmd => if Latches(s) then Activate else GetCmd
    case Activate =>
      if s.cnt != 0 then Activate
      else if Drops(s, i) then Idle
      else if s.cmd == CODE_SCR || s.cmd == CODE_SCW then WaitTrcd
      else if !ActGapOk(s) then Activate
      else if s.cmd == CODE_BLR then BlrAct else BlwAct
    case WaitTrcd => if s.cnt == 0 then s.next else WaitTrcd
    case IssueRead => ScRead
    case ScRead => if s.cnt == 0 then ScrEnd else ScRead
    case ScrEnd => if s.cnt != 0 then ScrEnd else if AnotherBlock(s) then BlrIssue else Idle
    case IssueWrite => ScWrite
    case ScWrite => if s.cnt == 0 then ScwrData else ScWrite
    case ScwrData => if s.cnt == 0 then ScwrEnd else ScwrData
    case ScwrEnd => if s.cnt != 0 then ScwrEnd else if AnotherBlock(s) then BlwIssue else Idle
    case BlrAct => if s.cnt == 0 then WaitTrcd else BlrAct
    case BlrIssue => BlrRead
    case BlrRead => if s.cnt == 0 then ScrNlsn else BlrRead
    case BlwAct => if s.cnt == 0 then WaitTrcd else BlwAct
    case BlwIssue => BlwWrite
    case BlwWrite => if s.cnt == 0 then ScwrData else BlwWrite
    case RPre => if s.cnt == 0 then RNop else RPre
    case RNop => if s.cnt == 0 then RRef else RNop
    case RRef => if s.cnt == 1 then RIdl else RRef
    case RIdl => if s.cnt == 0 then Idle else RIdl
    case SrefPre => if s.cnt == 0 then SrefTrp else SrefPre
    case SrefTrp => if s.cnt == 0 then SrefEnter else SrefTrp
    case SrefEnter => if s.cnt == 0 then SrefIdle else SrefEnter
    case SrefIdle => if i.selfRefreshExit then SrefExitWait else SrefIdle
    case SrefExitWait => if s.cnt == 0 then Idle else SrefExitWait
    case PdPre => if s.cnt == 0 then PdTrp else PdPre
    case PdTrp => if s.cnt == 0 then PdIdle else PdTrp
    case PdIdle => if i.powerDownExit then PdExitWait else PdIdle
    case PdExitWait => if s.cnt == 0 then Idle else PdExitWait
    case DllPre => if s.cnt == 0 then DllTrp else DllPre
    case DllTrp => if s.cnt == 0 then DllMrs else DllTrp
    case DllMrs => if s.cnt == 0 then DllTmrd else DllMrs
    case DllTmrd => if s.cnt == 0 then DllTdllk else DllTmrd
    case DllTdllk => if s.dllCnt != 0 then DllTdllk else Idle
    case _ => Idle
  }

  /** A count is loaded on entry to most states and runs down to zero otherwise. */
  function NextCnt(cfg: Config, s: Registers, i: Inputs): int {
    var down := if s.cnt > 0 then s.cnt - 1 else s.cnt;
    if Aborts(s, i) then down else
    match s.state
    case Idle =>
      (match Arbitrate(cfg, s, i)
       case Stay => down
       case ToCommand => GETCMD_WAIT
       case _ => PRE_HOLD)
    case GetCmd => if Latches(s) then ACT_HOLD else down
    case Activate =>
      if s.cnt != 0 || Drops(s, i) then down
      else if s.cmd == CODE_SCR || s.cmd == CODE_SCW then RCD_WAIT
      else if ActGapOk(s) then ACT_HOLD else down
    case IssueRead => cfg.readWait
    case BlrIssue => cfg.readWait
    case IssueWrite => WRITE_WAIT
    case BlwIssue => WRITE_WAIT
    case RRef => if s.cnt == 1 then RFC_WAIT else down
    case SrefIdle => if i.selfRefreshExit then cfg.exitSelfRefresh else down
    case PdIdle => if i.powerDownExit then cfg.exitPowerDown else down
    case ScRead => if s.cnt == 0 then 8 else down
    case BlrRead => if s.cnt == 0 then 5 else down
    case ScWrite => if s.cnt == 0 then 7 else down
    case BlwWrite => if s.cnt == 0 then BlockDataWait(s.sz) else down
    case ScwrData => if s.cnt == 0 then WRITE_TAIL else down
    case BlrAct => if s.cnt == 0 then RCD_WAIT else down
    case BlwAct => if s.cnt == 0 then RCD_WAIT else down
    case RPre => if s.cnt == 0 then RP_WAIT else down
    case SrefPre => if s.cnt == 0 then RP_WAIT else down
    case PdPre => if s.cnt == 0 then RP_WAIT else down
    case DllPre => if s.cnt == 0 then RP_WAIT else down
    case RNop => if s.cnt == 0 then REF_HOLD else down
    case SrefTrp => if s.cnt == 0 then 1 else down
    case DllTrp => if s.cnt == 0 then 1 else down
    case DllMrs => if s.cnt == 0 then MRD_WAIT else down
    case _ => down
  }

  /** The counter stands still while the device is in a low-power mode. */
  function NextRefCnt(cfg: Config, s: Registers, i: Inputs): int {
    if Aborts(s, i) || (s.state.RRef? && s.cnt == 1) then cfg.refreshInit
    else if (s.state.SrefExitWait? || s.state.PdExitWait?) && s.cnt == 0 then 0
    else if i.ready && !s.selfRefresh && !s.powerDown && s.refCnt > 0 then s.refCnt - 1
    else s.refCnt
  }

  function NextBlk(s: Registers, i: Inputs): int {
    if EntersBlockAct(s, i) then 0 else if AnotherBlock(s) then (s.blk + 1) % 4 else s.blk
  }

  function NextFromBlw(s: Registers): bool {
    if s.state.ScWrite? then false else if s.state.BlwWrite? then true else s.fromBlw
  }

  function NextBurst(s: Registers): int {
    if (s.state.ScWrite? || s.state.BlwWrite?) && s.cnt == 0 then 0
    else if s.state.ScwrData? && s.burst < 7 then s.burst + 1
    else s.burst
  }

  /** Where the tRCD wait will lead. */
  function NextTarget(s: Registers): State {
    if s.cnt != 0 then s.next else
    match s.state
    case Activate => if s.cmd == CODE_SCR then IssueRead else if s.cmd == CODE_SCW then IssueWrite else s.next
    case BlrAct => BlrIssue
    case BlwAct => BlwIssue
    case _ => s.next
  }

  function NextActGap(s: Registers, i: Inputs): int {
    if Latches(s) || EntersBlockAct(s, i) then 0
    else if s.haveAct && s.actGap != ACT_GAP_MAX then s.actGap + 1 else s.actGap
  }

  function NextSelfRefresh(s: Registers, i: Inputs): bool {
    match s.state
    case SrefPre => s.selfRefresh && !i.selfRefreshExit
    case SrefTrp => s.selfRefresh && !i.selfRefreshExit
    case SrefEnter => !i.selfRefreshExit
    case SrefIdle => s.selfRefresh && !i.selfRefreshExit
    case _ => s.selfRefresh
  }

  function NextPowerDown(s: Registers, i: Inputs): bool {
    match s.state
    case PdPre => s.powerDown && !i.powerDownExit
    case PdTrp => !i.powerDownExit && (s.powerDown || s.cnt == 0)
    case PdIdle => s.powerDown && !i.powerDownExit
    case _ => s.powerDown
  }

  function NextIdleQuiet(cfg: Config, s: Registers, i: Inputs): int {
    if !QuietIdle(cfg, s, i) then 0 else if s.idleQuiet < cfg.autoIdle then s.idleQuiet + 1 else s.idleQuiet
  }

  function NextAutoReq(cfg: Config, s: Registers, i: Inputs): bool {
    && QuietIdle(cfg, s, i) && (s.autoReq || s.idleQuiet >= cfg.autoIdle)
    && Arbitrate(cfg, s, i) != ToSelfRefresh
  }

  predicate StartsDll(cfg: Config, s: Registers, i: Inputs) { s.state.Idle? && Arbitrate(cfg, s, i) == ToDll }

  function NextDllCnt(cfg: Config, s: Registers): int {
    if s.state.DllTmrd? && s.cnt == 0 then cfg.dllLock
    else if s.state.DllTdllk? && s.dllCnt != 0 then s.dllCnt - 1
    else s.dllCnt
  }

  /** The command lines. Three states leave them as they are. */
  function NextBus(s: Registers): Bus {
    match s.state
    case Activate => ACTIVATE
    case BlrAct => ACTIVATE
    case BlwAct => ACTIVATE
    case IssueRead => READ
    case BlrIssue => READ
    case IssueWrite => WRITE
    case BlwIssue => WRITE
    case RPre => PRECHARGE
    case SrefPre => PRECHARGE
    case PdPre => PRECHARGE
    case DllPre => PRECHARGE
    case RRef => REFRESH
    case DllMrs => MODE_SET
    case SrefEnter => NOP
    case SrefIdle => NOP
    case SrefExitWait => NOP
    case PdIdle => NOP
    case PdExitWait => NOP
    case ScrEnd => s.bus
    case ScwrEnd => s.bus
    case ScrLsn => s.bus
    case ScrNlsn => s.bus
    case ScrDnth => s.bus
    case _ => DESELECT
  }

  function NextBa(s: Registers): Bank {
    match s.state
    case Activate => s.bank
    case BlrAct => s.bank
    case BlwAct => s.bank
    case IssueRead => s.bank
    case BlrIssue => s.bank
    case IssueWrite => s.bank
    case BlwIssue => s.bank
    case DllMrs => 0
    case _ => s.ba
  }

  function NextA(cfg: Config, s: Registers): int {
    match s.state
    case Activate => s.row
    case BlrAct => s.row
    case BlwAct => s.row
    case IssueRead => ColumnPins(s.col, true)
    case IssueWrite => ColumnPins(s.col, true)
    case BlrIssue => ColumnPins(BlockColumn(s.col, s.blk), s.blk == s.sz)
    case BlwIssue => ColumnPins(BlockColumn(s.col, s.blk), s.blk == s.sz)
    case RPre => PRECHARGE_ALL
    case SrefPre => PRECHARGE_ALL
    case PdPre => PRECHARGE_ALL
    case DllPre => PRECHARGE_ALL
    case DllMrs => if s.dllMode then cfg.mrsDllOff else cfg.mrsDllOn
    case _ => s.a
  }

  /** The edges on which a data word is requested and the one on the FIFO output is driven. */
  predicate TakesData(s: Registers) {
    ((s.state.ScWrite? || s.state.BlwWrite?) && s.cnt == 0) || (s.state.ScwrData? && s.burst < 7)
  }

  predicate DrivesDq(s: Registers) {
    ((s.state.ScWrite? || s.state.BlwWrite?) && s.cnt == 0) || (s.state.ScwrData? && s.cnt != 0)
  }

  predicate PutsReturn(s: Registers) {
    (s.state.ScRead? && s.cnt == 0) || (s.state.ScrEnd? && s.cnt != 0)
  }

  function NextAddrReturn(s: Registers): Address {
    if s.state.ScRead? && s.cnt == 0 then s.addr
    else if s.state.ScrEnd? then (s.addr + (8 - s.cnt) % 8) % 0x200_0000
    else s.addrReturn
  }

  // ---------------------------------------------------------------- one clock edge

  /** Reset leaves the DLL and automatic self-refresh registers alone. */
  function Reset(cfg: Config, s: Registers): Registers {
    s.(state := Idle, cnt := 0, refCnt := cfg.refreshInit,
       addr := 0, cmd := 0, sz := 0, row := 0, bank := 0, col := 0,
       burst := 0, blk := 0, fromBlw := false, next := Idle,
       actGap := 0, haveAct := false, selfRefresh := false,
       getCmd := false, getData := false, putReturn := false, addrReturn := 0,
       bus := DESELECT, ba := 0, a := 0, dq := 0, driveDq := false,
       selfRefreshOut := false, powerDown := false)
  }

  function Advance(cfg: Config, s: Registers, i: Inputs): Registers {
    var latch := Latches(s);
    Registers(
      state := NextState(cfg, s, i),
      cnt := NextCnt(cfg, s, i),
      refCnt := NextRefCnt(cfg, s, i),
      addr := if latch then i.addr else s.addr,
      cmd := if latch then i.cmd else s.cmd,
      sz := if latch then i.sz else s.sz,
      row := if latch then RowOf(i.addr) else s.row,
      bank := if latch then BankOf(i.addr) else s.bank,
      col := if latch then ColOf(i.addr) else s.col,
      burst := NextBurst(s),
      blk := NextBlk(s, i),
      fromBlw := NextFromBlw(s),
      next := NextTarget(s),
      actGap := NextActGap(s, i),
      haveAct := s.haveAct || latch || EntersBlockAct(s, i),
      selfRefresh := NextSelfRefresh(s, i),
      idleQuiet := NextIdleQuiet(cfg, s, i),
      autoReq := NextAutoReq(cfg, s, i),
      dllInProgress := StartsDll(cfg, s, i) || (s.dllInProgress && !(s.state.DllTdllk? && s.dllCnt == 0)),
      dllMode := if StartsDll(cfg, s, i) then i.dllMode else s.dllMode,
      dllCnt := NextDllCnt(cfg, s),
      getCmd := s.state.Idle? && Arbitrate(cfg, s, i) == ToCommand,
      getData := TakesData(s),
      putReturn := PutsReturn(s),
      addrReturn := NextAddrReturn(s),
      bus := NextBus(s),
      ba := NextBa(s),
      a := NextA(cfg, s),
      dq := if TakesData(s) then i.din else s.dq,
      driveDq := DrivesDq(s),
      dllBusy := s.dllInProgress,
      selfRefreshOut := s.selfRefresh,
      powerDown := NextPowerDown(s, i))
  }

  function Step(cfg: Config, s: Registers, i: Inputs): Registers {
    if i.reset then Reset(cfg, s) else Advance(cfg, s, i)
  }
}
