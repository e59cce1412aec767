/**
 * The protocol engine as clocked hardware: registers updated in place, default assignments first, then the
 * arm of the current state. Every right-hand side reads `was`, the registers before the edge. Each group of
 * registers has its own clocked process; together they are one step of the specification.
 */
module EngineBlock {
  import opened DdrBus
  import opened ProtocolEngine

  // ---------------------------------------------------------------- the state and its count

  predicate Maintains(st: State) {
    match st
    case Idle => true
    case RPre => true
    case RNop => true
    case RRef => true
    case RIdl => true
    case SrefPre => true
    case SrefTrp => true
    case SrefEnter => true
    case SrefIdle => true
    case SrefExitWait => true
    case PdPre => true
    case PdTrp => true
    case PdIdle => true
    case PdExitWait => true
    case DllPre => true
    case DllTrp => true
    case DllMrs => true
    case DllTmrd => true
    case DllTdllk => true
    case _ => false
  }

  class FlowRegisters {
    const cfg: Config
    var state: State
    var cnt: int

    constructor (cfg: Config, s: Registers)
      ensures this.cfg == cfg && state == s.state && cnt == s.cnt
    {
      this.cfg := cfg;
      state, cnt := s.state, s.cnt;
    }

    method Clear()
      modifies this
      ensures state == Idle && cnt == 0
    {
      state, cnt := Idle, 0;
    }

    /** The arms of commands being executed. */
    method FlowOfCommand(was: Registers, i: Inputs)
      requires state == was.state && cnt == (if was.cnt > 0 then was.cnt - 1 else was.cnt)
      requires !Maintains(was.state)
      modifies this
      ensures state == NextState(cfg, was, i) && cnt == NextCnt(cfg, was, i)
    {
      match was.state {
        case GetCmd =>
          if was.cnt == 0 && (!was.haveAct || was.actGap >= ACT_GAP_MIN) {
            state, cnt := Activate, ACT_HOLD;
          }
        case Activate =>
          if was.cnt == 0 {
            var gapOk := !was.haveAct || was.actGap >= ACT_GAP_MIN;
            if was.cmd == CODE_SCR || was.cmd == CODE_SCW {
              state, cnt := WaitTrcd, RCD_WAIT;
            } else if was.cmd == CODE_BLR {
              if i.returnFill < ReturnThreshold(was.sz) {
                if gapOk {
                  state, cnt := BlrAct, ACT_HOLD;
                }
              } else {
                state := Idle;
              }
            } else if was.cmd == CODE_BLW {
              if gapOk {
                state, cnt := BlwAct, ACT_HOLD;
              }
            } else {
              state := Idle;
            }
          }
        case WaitTrcd =>
          if was.cnt == 0 {
            state := was.next;
          }
        case IssueRead => state, cnt := ScRead, cfg.readWait;
        case ScRead =>
          if was.cnt == 0 {
            state, cnt := ScrEnd, 8;
          }
        case ScrEnd =>
          if was.cnt == 0 {
            state := if was.cmd == CODE_BLR && was.blk < was.sz then BlrIssue else Idle;
          }
        case IssueWrite => state, cnt := ScWrite, WRITE_WAIT;
        case ScWrite =>
          if was.cnt == 0 {
            state, cnt := ScwrData, 7;
          }
        case ScwrData =>
          if was.cnt == 0 {
            state, cnt := ScwrEnd, WRITE_TAIL;
          }
        case ScwrEnd =>
          if was.cnt == 0 {
            state := if was.fromBlw && was.blk < was.sz then BlwIssue else Idle;
          }
        case BlrAct =>
          if was.cnt == 0 {
            state, cnt := WaitTrcd, RCD_WAIT;
          }
        case BlrIssue => state, cnt := BlrRead, cfg.readWait;
        case BlrRead =>
          if was.cnt == 0 {
            state, cnt := ScrNlsn, 5;
          }
        case BlwAct =>
          if was.cnt == 0 {
            state, cnt := WaitTrcd, RCD_WAIT;
          }
        case BlwIssue => state, cnt := BlwWrite, WRITE_WAIT;
        case BlwWrite =>
          if was.cnt == 0 {
            state, cnt := ScwrData, BlockDataWait(was.sz);
          }
        case ScrLsn => state := Idle;
        case ScrNlsn => state := Idle;
        case ScrDnth => state := Idle;
      }
    }

    /** IDLE and the refresh, low-power and DLL sequences. */
    method FlowOfMaintenance(was: Registers, i: Inputs)
      requires state == was.state && cnt == (if was.cnt > 0 then was.cnt - 1 else was.cnt)
      requires Maintains(was.state)
      modifies this
      ensures state == NextState(cfg, was, i) && cnt == NextCnt(cfg, was, i)
    {
      match was.state {
        case Idle =>
          var awake := !was.selfRefresh && !was.powerDown;
          var due := NeedRefresh(cfg, was, i);
          if i.ready && (i.selfRefreshReq || was.autoReq) && awake {
            state, cnt := SrefPre, PRE_HOLD;
          } else if i.ready && i.dllReq && !was.dllInProgress && awake && !due && !i.cmdAvailable {
            state, cnt := DllPre, PRE_HOLD;
          } else if i.ready && i.powerDownReq && awake && !due {
            state, cnt := PdPre, PRE_HOLD;
          } else if due && awake {
            state, cnt := RPre, PRE_HOLD;
          } else if i.cmdAvailable && i.ready && awake {
            state, cnt := GetCmd, GETCMD_WAIT;
          }
        case RPre =>
          if was.cnt == 0 {
            state, cnt := RNop, RP_WAIT;
          }
        case RNop =>
          if was.cnt == 0 {
            state, cnt := RRef, REF_HOLD;
          }
        case RRef =>
          if was.cnt == 1 {
            state, cnt := RIdl, RFC_WAIT;
          }
        case RIdl =>
          if was.cnt == 0 {
            state := Idle;
          }
        case SrefPre =>
          if i.selfRefreshExit {
            state := Idle;
          } else if was.cnt == 0 {
            state, cnt := SrefTrp, RP_WAIT;
          }
        case SrefTrp =>
          if i.selfRefreshExit {
            state := Idle;
          } else if was.cnt == 0 {
            state, cnt := SrefEnter, 1;
          }
        case SrefEnter =>
          if i.selfRefreshExit {
            state := Idle;
          } else if was.cnt == 0 {
            state := SrefIdle;
          }
        case SrefIdle =>
          if i.selfRefreshExit {
            state, cnt := SrefExitWait, cfg.exitSelfRefresh;
          }
        case SrefExitWait =>
          if was.cnt == 0 {
            state := Idle;
          }
        case PdPre =>
          if i.powerDownExit {
            state := Idle;
          } else if was.cnt == 0 {
            state, cnt := PdTrp, RP_WAIT;
          }
        case PdTrp =>
          if i.powerDownExit {
            state := Idle;
          } else if was.cnt == 0 {
            state := PdIdle;
          }
        case PdIdle =>
          if i.powerDownExit {
            state, cnt := PdExitWait, cfg.exitPowerDown;
          }
        case PdExitWait =>
          if was.cnt == 0 {
            state := Idle;
          }
        case DllPre =>
          if was.cnt == 0 {
            state, cnt := DllTrp, RP_WAIT;
          }
        case DllTrp =>
          if was.cnt == 0 {
            state, cnt := DllMrs, 1;
          }
        case DllMrs =>
          if was.cnt == 0 {
            state, cnt := DllTmrd, MRD_WAIT;
          }
        case DllTmrd =>
          if was.cnt == 0 {
            state := DllTdllk;
          }
        case DllTdllk =>
          if was.dllCnt == 0 {
            state := Idle;
          }
      }
    }

    method Clock(was: Registers, i: Inputs)
      requires state == was.state && cnt == was.cnt
      modifies this
      ensures state == NextState(cfg, was, i) && cnt == NextCnt(cfg, was, i)
    {
      if was.cnt > 0 {
        cnt := was.cnt - 1;
      }
      if Maintains(was.state) {
        FlowOfMaintenance(was, i);
      } else {
        FlowOfCommand(was, i);
      }
    }
  }

  // ---------------------------------------------------------------- the command and its progress

  class CommandRegisters {
    var addr: Address
    var cmd: Code
    var sz: Size
    var row: int
    var bank: Bank
    var col: int

    constructor (s: Registers)
      ensures addr == s.addr && cmd == s.cmd && sz == s.sz && row == s.row && bank == s.bank && col == s.col
    {
      addr, cmd, sz, row, bank, col := s.addr, s.cmd, s.sz, s.row, s.bank, s.col;
    }

    method Clear()
      modifies this
      ensures addr == 0 && cmd == 0 && sz == 0 && row == 0 && bank == 0 && col == 0
    {
      addr, cmd, sz, row, bank, col := 0, 0, 0, 0, 0, 0;
    }

    method Clock(was: Registers, i: Inputs)
      requires addr == was.addr && cmd == was.cmd && sz == was.sz && row == was.row && bank == was.bank && col == was.col
      modifies this
      ensures addr == (if Latches(was) then i.addr else was.addr) && cmd == (if Latches(was) then i.cmd else was.cmd)
      ensures sz == (if Latches(was) then i.sz else was.sz) && row == (if Latches(was) then RowOf(i.addr) else was.row)
      ensures bank == (if Latches(was) then BankOf(i.addr) else was.bank) && col == (if Latches(was) then ColOf(i.addr) else was.col)
    {
      if was.state.GetCmd? && was.cnt == 0 && (!was.haveAct || was.actGap >= ACT_GAP_MIN) {
        addr, cmd, sz := i.addr, i.cmd, i.sz;
        row, bank, col := RowOf(i.addr), BankOf(i.addr), ColOf(i.addr);
      }
    }
  }

  class ProgressRegisters {
    var burst: int
    var blk: int
    var fromBlw: bool
    var next: State

    constructor (s: Registers)
      ensures burst == s.burst && blk == s.blk && fromBlw == s.fromBlw && next == s.next
    {
      burst, blk, fromBlw, next := s.burst, s.blk, s.fromBlw, s.next;
    }

    method Clear()
      modifies this
      ensures burst == 0 && blk == 0 && !fromBlw && next == Idle
    {
      burst, blk, fromBlw, next := 0, 0, false, Idle;
    }

    /** The write burst counter and the origin of the data phase. */
    method ClockBurst(was: Registers)
      requires burst == was.burst && fromBlw == was.fromBlw
      modifies this`burst, this`fromBlw
      ensures burst == NextBurst(was) && fromBlw == NextFromBlw(was)
    {
      match was.state {
        case ScWrite =>
          fromBlw := false;
          if was.cnt == 0 {
            burst := 0;
          }
        case BlwWrite =>
          fromBlw := true;
          if was.cnt == 0 {
            burst := 0;
          }
        case ScwrData =>
          if was.burst < 7 {
            burst := was.burst + 1;
          }
        case _ =>
      }
    }

    /** The sub-burst index of a block command. */
    method ClockBlock(was: Registers, i: Inputs)
      requires blk == was.blk
      modifies this`blk
      ensures blk == NextBlk(was, i)
    {
      match was.state {
        case Activate =>
          if was.cnt == 0 && (!was.haveAct || was.actGap >= ACT_GAP_MIN) {
            if (was.cmd == CODE_BLR && i.returnFill < ReturnThreshold(was.sz)) || was.cmd == CODE_BLW {
              blk := 0;
            }
          }
        case ScrEnd =>
          if was.cnt == 0 && was.cmd == CODE_BLR && was.blk < was.sz {
            blk := (was.blk + 1) % 4;
          }
        case ScwrEnd =>
          if was.cnt == 0 && was.fromBlw && was.blk < was.sz {
            blk := (was.blk + 1) % 4;
          }
        case _ =>
      }
    }

    /** Where the tRCD wait leads. */
    method ClockTarget(was: Registers)
      requires next == was.next
      modifies this`next
      ensures next == NextTarget(was)
    {
      if was.cnt == 0 {
        match was.state {
          case Activate =>
            if was.cmd == CODE_SCR {
              next := IssueRead;
            } else if was.cmd == CODE_SCW {
              next := IssueWrite;
            }
          case BlrAct => next := BlrIssue;
          case BlwAct => next := BlwIssue;
          case _ =>
        }
      }
    }

    method Clock(was: Registers, i: Inputs)
      requires burst == was.burst && blk == was.blk && fromBlw == was.fromBlw && next == was.next
      modifies this
      ensures burst == NextBurst(was) && blk == NextBlk(was, i) && fromBlw == NextFromBlw(was) && next == NextTarget(was)
    {
      ClockBurst(was);
      ClockBlock(was, i);
      ClockTarget(was);
    }
  }

  // ---------------------------------------------------------------- timers

  class TimerRegisters {
    const cfg: Config
    var refCnt: int
    var actGap: int
    var haveAct: bool
    var idleQuiet: int
    var autoReq: bool

    constructor (cfg: Config, s: Registers)
      ensures this.cfg == cfg && refCnt == s.refCnt && actGap == s.actGap && haveAct == s.haveAct
      ensures idleQuiet == s.idleQuiet && autoReq == s.autoReq
    {
      this.cfg := cfg;
      refCnt, actGap, haveAct, idleQuiet, autoReq := s.refCnt, s.actGap, s.haveAct, s.idleQuiet, s.autoReq;
    }

    /** Reset leaves the automatic self-refresh registers alone. */
    method Clear()
      modifies this`refCnt, this`actGap, this`haveAct
      ensures refCnt == cfg.refreshInit && actGap == 0 && !haveAct
    {
      refCnt, actGap, haveAct := cfg.refreshInit, 0, false;
    }

    method ClockRefresh(was: Registers, i: Inputs)
      requires refCnt == was.refCnt
      modifies this`refCnt
      ensures refCnt == NextRefCnt(cfg, was, i)
    {
      if i.ready && !was.selfRefresh && !was.powerDown {
        refCnt := if was.refCnt > 0 then was.refCnt - 1 else was.refCnt;
      }
      if was.state.RRef? && was.cnt == 1 {
        refCnt := cfg.refreshInit;
      }
      match was.state {
        case SrefPre =>
          if i.selfRefreshExit {
            refCnt := cfg.refreshInit;
          }
        case SrefTrp =>
          if i.selfRefreshExit {
            refCnt := cfg.refreshInit;
          }
        case SrefEnter =>
          if i.selfRefreshExit {
            refCnt := cfg.refreshInit;
          }
        case SrefExitWait =>
          if was.cnt == 0 {
            refCnt := 0;
          }
        case PdPre =>
          if i.powerDownExit {
            refCnt := cfg.refreshInit;
          }
        case PdTrp =>
          if i.powerDownExit {
            refCnt := cfg.refreshInit;
          }
        case PdExitWait =>
          if was.cnt == 0 {
            refCnt := 0;
          }
        case _ =>
      }
    }

    method ClockGap(was: Registers, i: Inputs)
      requires actGap == was.actGap && haveAct == was.haveAct
      modifies this`actGap, this`haveAct
      ensures actGap == NextActGap(was, i) && haveAct == (was.haveAct || Latches(was) || EntersBlockAct(was, i))
    {
      if was.haveAct && was.actGap != ACT_GAP_MAX {
        actGap := was.actGap + 1;
      }
      var gapOk := !was.haveAct || was.actGap >= ACT_GAP_MIN;
      match was.state {
        case GetCmd =>
          if was.cnt == 0 && gapOk {
            actGap, haveAct := 0, true;
          }
        case Activate =>
          if was.cnt == 0 && gapOk {
            if (was.cmd == CODE_BLR && i.returnFill < ReturnThreshold(was.sz)) || was.cmd == CODE_BLW {
              actGap, haveAct := 0, true;
            }
          }
        case _ =>
      }
    }

    method ClockQuiet(was: Registers, i: Inputs)
      requires idleQuiet == was.idleQuiet && autoReq == was.autoReq
      modifies this`idleQuiet, this`autoReq
      ensures idleQuiet == NextIdleQuiet(cfg, was, i) && autoReq == NextAutoReq(cfg, was, i)
    {
      var awake := !was.selfRefresh && !was.powerDown;
      if was.state.Idle? && i.ready && !NeedRefresh(cfg, was, i) && awake && !i.cmdAvailable {
        if was.idleQuiet < cfg.autoIdle {
          idleQuiet := was.idleQuiet + 1;
        } else {
          autoReq := true;
        }
      } else {
        idleQuiet, autoReq := 0, false;
      }
      if was.state.Idle? && i.ready && (i.selfRefreshReq || was.autoReq) && awake {
        autoReq := false;
      }
    }

    method Clock(was: Registers, i: Inputs)
      requires refCnt == was.refCnt && actGap == was.actGap && haveAct == was.haveAct
      requires idleQuiet == was.idleQuiet && autoReq == was.autoReq
      modifies this
      ensures refCnt == NextRefCnt(cfg, was, i)
      ensures actGap == NextActGap(was, i) && haveAct == (was.haveAct || Latches(was) || EntersBlockAct(was, i))
      ensures idleQuiet == NextIdleQuiet(cfg, was, i) && autoReq == NextAutoReq(cfg, was, i)
    {
      ClockRefresh(was, i);
      ClockGap(was, i);
      ClockQuiet(was, i);
    }
  }

  // ---------------------------------------------------------------- low power and DLL

  class PowerRegisters {
    const cfg: Config
    var selfRefresh: bool
    var selfRefreshOut: bool
    var powerDown: bool
    var dllInProgress: bool
    var dllMode: bool
    var dllCnt: int
    var dllBusy: bool

    constructor (cfg: Config, s: Registers)
      ensures this.cfg == cfg && selfRefresh == s.selfRefresh && selfRefreshOut == s.selfRefreshOut && powerDown == s.powerDown
      ensures dllInProgress == s.dllInProgress && dllMode == s.dllMode && dllCnt == s.dllCnt && dllBusy == s.dllBusy
    {
      this.cfg := cfg;
      selfRefresh, selfRefreshOut, powerDown := s.selfRefresh, s.selfRefreshOut, s.powerDown;
      dllInProgress, dllMode, dllCnt, dllBusy := s.dllInProgress, s.dllMode, s.dllCnt, s.dllBusy;
    }

    /** Reset leaves the DLL registers alone. */
    method Clear()
      modifies this`selfRefresh, this`selfRefreshOut, this`powerDown
      ensures !selfRefresh && !selfRefreshOut && !powerDown
    {
      selfRefresh, selfRefreshOut, powerDown := false, false, false;
    }

    method ClockSelfRefresh(was: Registers, i: Inputs)
      requires selfRefresh == was.selfRefresh
      modifies this`selfRefresh, this`selfRefreshOut
      ensures selfRefresh == NextSelfRefresh(was, i) && selfRefreshOut == was.selfRefresh
    {
      selfRefreshOut := was.selfRefresh;
      match was.state {
        case SrefPre =>
          if i.selfRefreshExit {
            selfRefresh := false;
          }
        case SrefTrp =>
          if i.selfRefreshExit {
            selfRefresh := false;
          }
        case SrefEnter => selfRefresh := !i.selfRefreshExit;
        case SrefIdle =>
          if i.selfRefreshExit {
            selfRefresh := false;
          }
        case _ =>
      }
    }

    method ClockPowerDown(was: Registers, i: Inputs)
      requires powerDown == was.powerDown
      modifies this`powerDown
      ensures powerDown == NextPowerDown(was, i)
    {
      match was.state {
        case PdPre =>
          if i.powerDownExit {
            powerDown := false;
          }
        case PdTrp =>
          if i.powerDownExit {
            powerDown := false;
          } else if was.cnt == 0 {
            powerDown := true;
          }
        case PdIdle =>
          if i.powerDownExit {
            powerDown := false;
          }
        case _ =>
      }
    }

    method ClockDll(was: Registers, i: Inputs)
      requires dllInProgress == was.dllInProgress && dllMode == was.dllMode && dllCnt == was.dllCnt
      modifies this`dllInProgress, this`dllMode, this`dllCnt, this`dllBusy
      ensures dllInProgress == (StartsDll(cfg, was, i) || (was.dllInProgress && !(was.state.DllTdllk? && was.dllCnt == 0)))
      ensures dllMode == (if StartsDll(cfg, was, i) then i.dllMode else was.dllMode)
      ensures dllCnt == NextDllCnt(cfg, was) && dllBusy == was.dllInProgress
    {
      dllBusy := was.dllInProgress;
      if StartsDll(cfg, was, i) {
        dllInProgress, dllMode := true, i.dllMode;
      } else if was.state.DllTmrd? && was.cnt == 0 {
        dllCnt := cfg.dllLock;
      } else if was.state.DllTdllk? {
        if was.dllCnt != 0 {
          dllCnt := was.dllCnt - 1;
        } else {
          dllInProgress := false;
        }
      }
    }

    method Clock(was: Registers, i: Inputs)
      requires selfRefresh == was.selfRefresh && powerDown == was.powerDown
      requires dllInProgress == was.dllInProgress && dllMode == was.dllMode && dllCnt == was.dllCnt
      modifies this
      ensures selfRefresh == NextSelfRefresh(was, i) && selfRefreshOut == was.selfRefresh && powerDown == NextPowerDown(was, i)
      ensures dllInProgress == (StartsDll(cfg, was, i) || (was.dllInProgress && !(was.state.DllTdllk? && was.dllCnt == 0)))
      ensures dllMode == (if StartsDll(cfg, was, i) then i.dllMode else was.dllMode)
      ensures dllCnt == NextDllCnt(cfg, was) && dllBusy == was.dllInProgress
    {
      ClockSelfRefresh(was, i);
      ClockPowerDown(was, i);
      ClockDll(was, i);
    }
  }

  // ---------------------------------------------------------------- outputs

  class OutputRegisters {
    const cfg: Config
    var getCmd: bool
    var getData: bool
    var putReturn: bool
    var addrReturn: Address
    var bus: Bus
    var ba: Bank
    var a: int
    var dq: Word
    var driveDq: bool

    constructor (cfg: Config, s: Registers)
      ensures this.cfg == cfg && bus == s.bus && ba == s.ba && a == s.a && dq == s.dq && driveDq == s.driveDq
      ensures getCmd == s.getCmd && getData == s.getData && putReturn == s.putReturn && addrReturn == s.addrReturn
    {
      this.cfg := cfg;
      getCmd, getData, putReturn, addrReturn := s.getCmd, s.getData, s.putReturn, s.addrReturn;
      bus, ba, a, dq, driveDq := s.bus, s.ba, s.a, s.dq, s.driveDq;
    }

    method Clear()
      modifies this
      ensures !getCmd && !getData && !putReturn && addrReturn == 0
      ensures bus == DESELECT && ba == 0 && a == 0 && dq == 0 && !driveDq
    {
      getCmd, getData, putReturn, addrReturn := false, false, false, 0;
      bus, ba, a, dq, driveDq := DESELECT, 0, 0, 0, false;
    }

    method ClockPins(was: Registers)
      requires bus == was.bus && ba == was.ba && a == was.a
      modifies this`bus, this`ba, this`a
      ensures bus == NextBus(was) && ba == NextBa(was) && a == NextA(cfg, was)
    {
      match was.state {
        case Activate => bus, ba, a := ACTIVATE, was.bank, was.row;
        case BlrAct => bus, ba, a := ACTIVATE, was.bank, was.row;
        case BlwAct => bus, ba, a := ACTIVATE, was.bank, was.row;
        case IssueRead => bus, ba, a := READ, was.bank, ColumnPins(was.col, true);
        case IssueWrite => bus, ba, a := WRITE, was.bank, ColumnPins(was.col, true);
        case BlrIssue => bus, ba, a := READ, was.bank, ColumnPins(BlockColumn(was.col, was.blk), was.blk == was.sz);
        case BlwIssue => bus, ba, a := WRITE, was.bank, ColumnPins(BlockColumn(was.col, was.blk), was.blk == was.sz);
        case RPre => bus, a := PRECHARGE, PRECHARGE_ALL;
        case SrefPre => bus, a := PRECHARGE, PRECHARGE_ALL;
        case PdPre => bus, a := PRECHARGE, PRECHARGE_ALL;
        case DllPre => bus, a := PRECHARGE, PRECHARGE_ALL;
        case RRef => bus := REFRESH;
        case DllMrs => bus, ba, a := MODE_SET, 0, if was.dllMode then cfg.mrsDllOff else cfg.mrsDllOn;
        case SrefEnter => bus := NOP;
        case SrefIdle => bus := NOP;
        case SrefExitWait => bus := NOP;
        case PdIdle => bus := NOP;
        case PdExitWait => bus := NOP;
        case ScrEnd =>
        case ScwrEnd =>
        case ScrLsn =>
        case ScrNlsn =>
        case ScrDnth =>
        case _ => bus := DESELECT;
      }
    }

    method ClockData(was: Registers, i: Inputs)
      requires addrReturn == was.addrReturn && dq == was.dq
      modifies this`getCmd, this`getData, this`putReturn, this`addrReturn, this`dq, this`driveDq
      ensures getCmd == (was.state.Idle? && Arbitrate(cfg, was, i) == ToCommand)
      ensures getData == TakesData(was) && putReturn == PutsReturn(was) && addrReturn == NextAddrReturn(was)
      ensures dq == (if TakesData(was) then i.din else was.dq) && driveDq == DrivesDq(was)
    {
      getCmd, getData, putReturn, driveDq := false, false, false, false;
      match was.state {
        case Idle => getCmd := Arbitrate(cfg, was, i) == ToCommand;
        case ScRead =>
          if was.cnt == 0 {
            putReturn, addrReturn := true, was.addr;
          }
        case ScrEnd =>
          putReturn, addrReturn := was.cnt != 0, (was.addr + (8 - was.cnt) % 8) % 0x200_0000;
        case ScWrite =>
          if was.cnt == 0 {
            driveDq, getData, dq := true, true, i.din;
          }
        case BlwWrite =>
          if was.cnt == 0 {
            driveDq, getData, dq := true, true, i.din;
          }
        case ScwrData =>
          driveDq := true;
          if was.burst < 7 {
            getData, dq := true, i.din;
          }
          if was.cnt == 0 {
            driveDq := false;
          }
        case _ =>
      }
    }

    method Clock(was: Registers, i: Inputs)
      requires bus == was.bus && ba == was.ba && a == was.a && addrReturn == was.addrReturn && dq == was.dq
      modifies this
      ensures bus == NextBus(was) && ba == NextBa(was) && a == NextA(cfg, was)
      ensures getCmd == (was.state.Idle? && Arbitrate(cfg, was, i) == ToCommand)
      ensures getData == TakesData(was) && putReturn == PutsReturn(was) && addrReturn == NextAddrReturn(was)
      ensures dq == (if TakesData(was) then i.din else was.dq) && driveDq == DrivesDq(was)
    {
      ClockPins(was);
      ClockData(was, i);
    }
  }

  // ---------------------------------------------------------------- the whole engine

  /** A register file that holds every next value is the next state. */
  lemma Assembles(cfg: Config, s: Registers, i: Inputs, t: Registers)
    requires t.state == NextState(cfg, s, i) && t.cnt == NextCnt(cfg, s, i)
    requires t.addr == (if Latches(s) then i.addr else s.addr) && t.cmd == (if Latches(s) then i.cmd else s.cmd)
    requires t.sz == (if Latches(s) then i.sz else s.sz) && t.row == (if Latches(s) then RowOf(i.addr) else s.row)
    requires t.bank == (if Latches(s) then BankOf(i.addr) else s.bank) && t.col == (if Latches(s) then ColOf(i.addr) else s.col)
    requires t.burst == NextBurst(s) && t.blk == NextBlk(s, i) && t.fromBlw == NextFromBlw(s) && t.next == NextTarget(s)
    requires t.refCnt == NextRefCnt(cfg, s, i)
    requires t.actGap == NextActGap(s, i) && t.haveAct == (s.haveAct || Latches(s) || EntersBlockAct(s, i))
    requires t.idleQuiet == NextIdleQuiet(cfg, s, i) && t.autoReq == NextAutoReq(cfg, s, i)
    requires t.selfRefresh == NextSelfRefresh(s, i) && t.selfRefreshOut == s.selfRefresh && t.powerDown == NextPowerDown(s, i)
    requires t.dllInProgress == (StartsDll(cfg, s, i) || (s.dllInProgress && !(s.state.DllTdllk? && s.dllCnt == 0)))
    requires t.dllMode == (if StartsDll(cfg, s, i) then i.dllMode else s.dllMode)
    requires t.dllCnt == NextDllCnt(cfg, s) && t.dllBusy == s.dllInProgress
    requires t.bus == NextBus(s) && t.ba == NextBa(s) && t.a == NextA(cfg, s)
    requires t.getCmd == (s.state.Idle? && Arbitrate(cfg, s, i) == ToCommand)
    requires t.getData == TakesData(s) && t.putReturn == PutsReturn(s) && t.addrReturn == NextAddrReturn(s)
    requires t.dq == (if TakesData(s) then i.din else s.dq) && t.driveDq == DrivesDq(s)
    ensures t == Advance(cfg, s, i)
  {
  }

  class Block {
    const cfg: Config
    const flow: FlowRegisters
    const command: CommandRegisters
    const progress: ProgressRegisters
    const timers: TimerRegisters
    const power: PowerRegisters
    const outputs: OutputRegisters

    ghost predicate Valid() { flow.cfg == timers.cfg == power.cfg == outputs.cfg == cfg }

    function Snapshot(): Registers
      reads flow, command, progress, timers, power, outputs
    {
      Registers(flow.state, flow.cnt, timers.refCnt,
                command.addr, command.cmd, command.sz, command.row, command.bank, command.col,
                progress.burst, progress.blk, progress.fromBlw, progress.next, timers.actGap, timers.haveAct,
                power.selfRefresh, timers.idleQuiet, timers.autoReq, power.dllInProgress, power.dllMode, power.dllCnt,
                outputs.getCmd, outputs.getData, outputs.putReturn, outputs.addrReturn,
                outputs.bus, outputs.ba, outputs.a, outputs.dq, outputs.driveDq,
                power.dllBusy, power.selfRefreshOut, power.powerDown)
    }

    /** Power-up leaves every register at an arbitrary value of its type. */
    constructor (cfg: Config, s: Registers)
      ensures Valid() && this.cfg == cfg && Snapshot() == s
      ensures fresh(flow) && fresh(command) && fresh(progress) && fresh(timers) && fresh(power) && fresh(outputs)
    {
      this.cfg := cfg;
      flow := new FlowRegisters(cfg, s);
      command := new CommandRegisters(s);
      progress := new ProgressRegisters(s);
      timers := new TimerRegisters(cfg, s);
      power := new PowerRegisters(cfg, s);
      outputs := new OutputRegisters(cfg, s);
    }

    method Clear()
      requires Valid()
      modifies flow, command, progress, timers, power, outputs
      ensures Snapshot() == Reset(cfg, old(Snapshot()))
    {
      flow.Clear();
      command.Clear();
      progress.Clear();
      timers.Clear();
      power.Clear();
      outputs.Clear();
    }

    /** The order of the groups does not matter: each reads `was` and writes its own registers. */
    method Move(i: Inputs)
      requires Valid()
      modifies flow, command, progress, timers, power, outputs
      ensures Snapshot() == Advance(cfg, old(Snapshot()), i)
    {
      var was := Snapshot();
      flow.Clock(was, i);
      command.Clock(was, i);
      progress.Clock(was, i);
      timers.Clock(was, i);
      power.Clock(was, i);
      outputs.Clock(was, i);
      Assembles(cfg, was, i, Snapshot());
    }

    /** One clock edge. */
    method Clock(i: Inputs)
      requires Valid()
      modifies flow, command, progress, timers, power, outputs
      ensures Snapshot() == Step(cfg, old(Snapshot()), i)
    {
      if i.reset {
        Clear();
      } else {
        Move(i);
      }
    }
  }
}
