/**
 * The power-up initialisation engine: a parametric sequencer that ends in a permanent
 * READY state (JESD79-2, power-up and initialization sequence).
 */
module InitEngine {
  import opened DdrBus

  /** Elaboration-time parameters, all 17-bit counts except the mode-register values. */
  datatype Config = Config(
    powerUp: nat, txsr: nat, trp: nat, tmrd: nat, trfc: nat, tmrdDll: nat, final: nat,
    ocdWait: nat,  // zero when the OCD window is disabled
    zqWait: nat,   // zero when the ZQ window is disabled
    mrsReset: int, mrsFinal: int, emrs1Init: int, emrs1Final: int
  )

  /** An optional calibration window counts only when it is enabled. */
  function Window(enabled: bool, cycles: nat): nat { if enabled then cycles else 0 }

  function DefaultConfig(): Config {
    Config(100_000, 199, 7, 3, 100, 405, 4, Window(false, 0), Window(false, 0), 0x413, 0x13, 0x600, 0x640)
  }

  datatype State =
    | Idle | PowerUp | Cke | Pre | Trp
    | Emrs2 | Emrs2W | Emrs3 | Emrs3W | Emrs1 | Emrs1W | Mrs | MrsW
    | Ref1 | Ref1W | Ref2 | Ref2W | Mrs2 | Mrs2W | Emrs1b | Emrs1bW
    | FinalPre | FinalW | Ready | OcdWait | ZqWait

  datatype Registers = Registers(state: State, cntr: nat, ready: bool, cke: bool, bus: Bus, ba: Bank, a: int)

  const RESET := Registers(Idle, 0, false, false, DESELECT, 0, 0)

  function NextState(cfg: Config, s: Registers, init: bool): State {
    var done := s.cntr == 0;
    match s.state
    case Idle => if init then PowerUp else Idle
    case PowerUp => if done then Cke else PowerUp
    case Cke => if done then Pre else Cke
    case Pre => Trp
    case Trp => if done then Emrs2 else Trp
    case Emrs2 => Emrs2W
    case Emrs2W => if done then Emrs3 else Emrs2W
    case Emrs3 => Emrs3W
    case Emrs3W => if done then Emrs1 else Emrs3W
    case Emrs1 => Emrs1W
    case Emrs1W => if done then Mrs else Emrs1W
    case Mrs => MrsW
    case MrsW => if done then Ref1 else MrsW
    case Ref1 => Ref1W
    case Ref1W => if done then Ref2 else Ref1W
    case Ref2 => Ref2W
    case Ref2W => if done then Mrs2 else Ref2W
    case Mrs2 => Mrs2W
    case Mrs2W => if done then Emrs1b else Mrs2W
    case Emrs1b => Emrs1bW
    case Emrs1bW => if !done then Emrs1bW else if cfg.ocdWait != 0 then OcdWait else FinalPre
    case OcdWait => if done then FinalPre else OcdWait
    case FinalPre => if cfg.zqWait != 0 then ZqWait else FinalW
    case ZqWait => if done then FinalW else ZqWait
    case FinalW => if done then Ready else FinalW
    case Ready => Ready
  }

  /** What a state loads when it finds the counter at zero. */
  function Load(cfg: Config, st: State): nat {
    match st
    case PowerUp => cfg.txsr
    case Cke => 1
    case Pre => cfg.trp
    case MrsW => cfg.trfc
    case Ref1 => cfg.trfc
    case Ref1W => cfg.trfc
    case Ref2 => cfg.trfc
    case Ref2W => cfg.tmrdDll
    case Emrs1bW => if cfg.ocdWait != 0 then cfg.ocdWait else cfg.final
    case OcdWait => cfg.final
    case ZqWait => cfg.final
    case FinalPre => if cfg.zqWait != 0 then cfg.zqWait else cfg.final
    case Idle => 0
    case FinalW => 0
    case Ready => 0
    case _ => cfg.tmrd
  }

  function NextCntr(cfg: Config, s: Registers, init: bool): nat {
    if s.state.Idle? && init then cfg.powerUp
    else if s.cntr != 0 then s.cntr - 1
    else Load(cfg, s.state)
  }

  function NextBus(st: State): Bus {
    match st
    case Pre => PRECHARGE
    case FinalPre => PRECHARGE
    case Ref1 => REFRESH
    case Ref2 => REFRESH
    case Emrs2 => MODE_SET
    case Emrs3 => MODE_SET
    case Emrs1 => MODE_SET
    case Mrs => MODE_SET
    case Mrs2 => MODE_SET
    case Emrs1b => MODE_SET
    case _ => DESELECT
  }

  function NextBa(s: Registers): Bank {
    match s.state
    case Emrs2 => 2
    case Emrs3 => 3
    case Emrs1 => 1
    case Emrs1b => 1
    case Mrs => 0
    case Mrs2 => 0
    case _ => s.ba
  }

  function NextA(cfg: Config, s: Registers): int {
    match s.state
    case Pre => PRECHARGE_ALL
    case FinalPre => PRECHARGE_ALL
    case Emrs2 => 0
    case Emrs3 => 0
    case Emrs1 => cfg.emrs1Init
    case Emrs1b => cfg.emrs1Final
    case Mrs => cfg.mrsReset
    case Mrs2 => cfg.mrsFinal
    case _ => s.a
  }

  function Step(cfg: Config, s: Registers, reset: bool, init: bool): Registers {
    if reset then RESET
    else Registers(NextState(cfg, s, init), NextCntr(cfg, s, init), s.state.Ready? || (s.ready && !s.state.Idle?),
                   !s.state.Idle? && !s.state.PowerUp?, NextBus(s.state), NextBa(s), NextA(cfg, s))
  }

  // ---------------------------------------------------------------- the clocked block

  class Block {
    const cfg: Config
    var state: State
    var cntr: nat
    var ready: bool
    var cke: bool
    var bus: Bus
    var ba: Bank
    var a: int

    ghost function Snapshot(): Registers
      reads this
    {
      Registers(state, cntr, ready, cke, bus, ba, a)
    }

    constructor (cfg: Config)
      ensures this.cfg == cfg && Snapshot() == RESET
    {
      this.cfg := cfg;
      state, cntr, ready, cke, bus, ba, a := Idle, 0, false, false, DESELECT, 0, 0;
    }

    static predicate BeforeRefresh(st: State) {
      match st
      case Ref1 => false
      case Ref1W => false
      case Ref2 => false
      case Ref2W => false
      case Mrs2 => false
      case Mrs2W => false
      case Emrs1b => false
      case Emrs1bW => false
      case OcdWait => false
      case FinalPre => false
      case ZqWait => false
      case FinalW => false
      case Ready => false
      case _ => true
    }

    static predicate AfterModes(st: State) {
      match st
      case Emrs1b => true
      case Emrs1bW => true
      case OcdWait => true
      case FinalPre => true
      case ZqWait => true
      case FinalW => true
      case Ready => true
      case _ => false
    }

    /** Up to the first refresh. The counter runs down unless the state loads it. */
    method ClockModes(init: bool)
      requires BeforeRefresh(state)
      modifies this
      ensures Snapshot() == Step(cfg, old(Snapshot()), false, init)
    {
      var done := cntr == 0;
      var now := state;
      state := NextState(cfg, Registers(state, cntr, ready, cke, bus, ba, a), init);
      if !done {
        cntr := cntr - 1;
      }
      match now {
        case Idle =>
          ready, cke, bus := false, false, DESELECT;
          if init {
            cntr := cfg.powerUp;
          }
        case PowerUp =>
          cke, bus := false, DESELECT;
          if done {
            cntr := cfg.txsr;
          }
        case Cke =>
          cke, bus := true, DESELECT;
          if done {
            cntr := 1;
          }
        case Pre =>
          cke, bus := true, PRECHARGE;
          a := PRECHARGE_ALL;
          if done {
            cntr := cfg.trp;
          }
        case Trp =>
          cke, bus := true, DESELECT;
          if done {
            cntr := cfg.tmrd;
          }
        case Emrs2 =>
          cke, bus := true, MODE_SET;
          a := 0;
          ba := 2;
          if done {
            cntr := cfg.tmrd;
          }
        case Emrs2W =>
          cke, bus := true, DESELECT;
          if done {
            cntr := cfg.tmrd;
          }
        case Emrs3 =>
          cke, bus := true, MODE_SET;
          a := 0;
          ba := 3;
          if done {
            cntr := cfg.tmrd;
          }
        case Emrs3W =>
          cke, bus := true, DESELECT;
          if done {
            cntr := cfg.tmrd;
          }
        case Emrs1 =>
          cke, bus := true, MODE_SET;
          a := cfg.emrs1Init;
          ba := 1;
          if done {
            cntr := cfg.tmrd;
          }
        case Emrs1W =>
          cke, bus := true, DESELECT;
          if done {
            cntr := cfg.tmrd;
          }
        case Mrs =>
          cke, bus := true, MODE_SET;
          a := cfg.mrsReset;
          ba := 0;
          if done {
            cntr := cfg.tmrd;
          }
        case MrsW =>
          cke, bus := true, DESELECT;
          if done {
            cntr := cfg.trfc;
          }
        case _ =>
      }
    }

    /** The two refreshes and the final mode register. */
    method ClockRefreshes(init: bool)
      requires !BeforeRefresh(state) && !AfterModes(state)
      modifies this
      ensures Snapshot() == Step(cfg, old(Snapshot()), false, init)
    {
      var done := cntr == 0;
      var now := state;
      state := NextState(cfg, Registers(state, cntr, ready, cke, bus, ba, a), init);
      if !done {
        cntr := cntr - 1;
      }
      match now {
        case Ref1 =>
          cke, bus := true, REFRESH;
          if done {
            cntr := cfg.trfc;
          }
        case Ref1W =>
          cke, bus := true, DESELECT;
          if done {
            cntr := cfg.trfc;
          }
        case Ref2 =>
          cke, bus := true, REFRESH;
          if done {
            cntr := cfg.trfc;
          }
        case Ref2W =>
          cke, bus := true, DESELECT;
          if done {
            cntr := cfg.tmrdDll;
          }
        case Mrs2 =>
          cke, bus := true, MODE_SET;
          a := cfg.mrsFinal;
          ba := 0;
          if done {
            cntr := cfg.tmrd;
          }
        case Mrs2W =>
          cke, bus := true, DESELECT;
          if done {
            cntr := cfg.tmrd;
          }
        case _ =>
      }
    }

    /** From the final extended mode register to READY. */
    method ClockFinal(init: bool)
      requires AfterModes(state)
      modifies this
      ensures Snapshot() == Step(cfg, old(Snapshot()), false, init)
    {
      var done := cntr == 0;
      var now := state;
      state := NextState(cfg, Registers(state, cntr, ready, cke, bus, ba, a), init);
      if !done {
        cntr := cntr - 1;
      }
      match now {
        case Emrs1b =>
          cke, bus := true, MODE_SET;
          a := cfg.emrs1Final;
          ba := 1;
          if done {
            cntr := cfg.tmrd;
          }
        case Emrs1bW =>
          cke, bus := true, DESELECT;
          if done {
            cntr := if cfg.ocdWait != 0 then cfg.ocdWait else cfg.final;
          }
        case FinalPre =>
          cke, bus := true, PRECHARGE;
          a := PRECHARGE_ALL;
          if done {
            cntr := if cfg.zqWait != 0 then cfg.zqWait else cfg.final;
          }
        case FinalW =>
          cke, bus := true, DESELECT;
        case OcdWait =>
          cke, bus := true, DESELECT;
          if done {
            cntr := cfg.final;
          }
        case ZqWait =>
          cke, bus := true, DESELECT;
          if done {
            cntr := cfg.final;
          }
        case Ready =>
          ready, cke, bus := true, true, DESELECT;
        case _ =>
      }
    }

    /** One clock edge. */
    method Clock(reset: bool, init: bool)
      modifies this
      ensures Snapshot() == Step(cfg, old(Snapshot()), reset, init)
    {
      if reset {
        state, cntr, ready, cke, bus, ba, a := Idle, 0, false, false, DESELECT, 0, 0;
      } else if BeforeRefresh(state) {
        ClockModes(init);
      } else if AfterModes(state) {
        ClockFinal(init);
      } else {
        ClockRefreshes(init);
      }
    }
  }
}
