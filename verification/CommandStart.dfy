/**
 * How a command gets from the queue to its row: taken from the FIFO, latched, and activated in the bank and row its
 * address names. And when a block read is given up for want of room.
 */
module CommandStart {
  import opened DdrBus
  import opened ProtocolEngine
  import opened EngineInvariant
  import opened Arbitration
  import Controller
  import Core

  /** IDLE has decided for a command. */
  predicate Decides(cfg: Config, s: Registers, i: Inputs) {
    && s.state.Idle? && i.ready && !i.reset && i.cmdAvailable
    && !WantsSelfRefresh(s, i) && !Due(cfg, s) && !WantsPowerDown(cfg, s, i)
  }

  /** k cycles after the decision: the FIFO is asked once, and gets two cycles to answer. */
  predicate Fetching(k: nat, s: Registers) { s.state.GetCmd? && s.cnt == GETCMD_WAIT - k && (s.getCmd <==> k == 0) }

  lemma FetchBegins(cfg: Config, s: Registers, i: Inputs)
    requires Inv(cfg, s) && Decides(cfg, s, i)
    ensures Fetching(0, Step(cfg, s, i))
  {
    IdleDecides(cfg, s, i);
    StepEdges(cfg, s, i);
  }

  lemma FetchGoesOn(cfg: Config, k: nat, s: Registers, i: Inputs)
    requires Fetching(k, s) && k < GETCMD_WAIT && !i.reset
    ensures Fetching(k + 1, Step(cfg, s, i))
  {
    StepEdges(cfg, s, i);
  }

  /** The command waits on the FIFO outputs until the ACT gap is over; then it is latched as it stands there. */
  lemma CommandIsLatched(cfg: Config, s: Registers, i: Inputs)
    requires s.state.GetCmd? && s.cnt == 0 && !i.reset
    ensures var t := Step(cfg, s, i);
      if s.haveAct && s.actGap < ACT_GAP_MIN then t.state.GetCmd? && t.cnt == 0 && t.cmd == s.cmd && t.addr == s.addr
      else t.state.Activate? && t.cnt == 1 && t.addr == i.addr && t.cmd == i.cmd && t.sz == i.sz
           && t.row == i.addr / 0x1000 && t.bank == i.addr / 8 % 4
  {
    StepEdges(cfg, s, i);
  }

  lemma RowIsOpened(cfg: Config, s: Registers, i: Inputs)
    requires Inv(cfg, s) && s.state.Activate? && !i.reset
    ensures var t := Step(cfg, s, i);
      t.bus == ACTIVATE && t.a == s.row && t.ba == s.bank && !t.selfRefreshOut && !t.powerDown
  {
    StepEdges(cfg, s, i);
  }

  // ---------------------------------------------------------------- whole runs

  lemma NextFetches(cfg: Core.Config, trace: seq<Core.State>, inputs: seq<Core.Inputs>, n: nat, k: nat)
    requires cfg.Valid() && Core.IsTrace(cfg, trace, inputs) && n < |inputs| && !inputs[n].reset
    requires k < GETCMD_WAIT && trace[n].init.ready && Fetching(k, trace[n].engine)
    ensures trace[n + 1].init.ready && Fetching(k + 1, trace[n + 1].engine)
  {
    Core.TraceFits(cfg, trace, inputs, n);
    assert trace[n + 1] == Core.Step(cfg, trace[n], inputs[n]);
    Core.ReadyStays(cfg, trace[n], inputs[n]);
    FetchGoesOn(cfg.engine, k, trace[n].engine, Core.EngineInputs(trace[n], inputs[n]));
  }

  lemma FirstFetches(cfg: Core.Config, trace: seq<Core.State>, inputs: seq<Core.Inputs>, n: nat)
    requires cfg.Valid() && Core.IsTrace(cfg, trace, inputs) && n < |inputs|
    requires Decides(cfg.engine, trace[n].engine, Core.EngineInputs(trace[n], inputs[n]))
    ensures trace[n + 1].init.ready && Fetching(0, trace[n + 1].engine)
  {
    Core.TraceFits(cfg, trace, inputs, n);
    assert trace[n + 1] == Core.Step(cfg, trace[n], inputs[n]);
    Core.ReadyStays(cfg, trace[n], inputs[n]);
    FetchBegins(cfg.engine, trace[n].engine, Core.EngineInputs(trace[n], inputs[n]));
  }

  lemma LatchShows(cfg: Core.Config, c: Core.State, i: Core.Inputs, d: Core.State, j: Core.Inputs)
    requires cfg.Valid() && Core.Fits(cfg, c) && c.init.ready && !i.reset && !j.reset && d == Core.Step(cfg, c, i)
    requires var s := c.engine; s.state.GetCmd? && s.cnt == 0 && (s.haveAct ==> s.actGap >= ACT_GAP_MIN)
    ensures var a := i.wires.addr;
      && d.engine.addr == a && d.engine.cmd == i.wires.cmd && d.engine.sz == i.wires.sz
      && Core.Pads(Core.Step(cfg, d, j)) == Pins(true, ACTIVATE, a / 8 % 4, a / 0x1000)
  {
    Core.StepFits(cfg, c, i);
    Core.ReadyStays(cfg, c, i);
    Core.ReadyStays(cfg, d, j);
    CommandIsLatched(cfg.engine, c.engine, Core.EngineInputs(c, i));
    RowIsOpened(cfg.engine, d.engine, Core.EngineInputs(d, j));
  }

  /**
   * On every run, once IDLE has decided for a command: the FIFO is asked in the next cycle, once, and the engine waits
   * two cycles for the answer.
   */
  lemma CommandsAreFetched(cfg: Core.Config, trace: seq<Core.State>, inputs: seq<Core.Inputs>, n: nat)
    requires cfg.Valid() && Core.IsTrace(cfg, trace, inputs) && n + 2 < |inputs| && !inputs[n + 1].reset && !inputs[n + 2].reset
    requires Decides(cfg.engine, trace[n].engine, Core.EngineInputs(trace[n], inputs[n]))
    ensures Fetching(0, trace[n + 1].engine) && Fetching(1, trace[n + 2].engine) && Fetching(2, trace[n + 3].engine)
    ensures trace[n + 3].init.ready
  {
    FirstFetches(cfg, trace, inputs, n);
    NextFetches(cfg, trace, inputs, n + 1, 0);
    NextFetches(cfg, trace, inputs, n + 2, 1);
  }

  /**
   * As soon as the ACT gap allows it the command on the FIFO outputs is latched, and one cycle later ACTIVATE to the
   * bank and the row its address names is on the pads.
   */
  lemma CommandsOpenRows(cfg: Core.Config, trace: seq<Core.State>, inputs: seq<Core.Inputs>, n: nat)
    requires cfg.Valid() && Core.IsTrace(cfg, trace, inputs) && n + 1 < |inputs| && !inputs[n].reset && !inputs[n + 1].reset
    requires trace[n].init.ready && trace[n].engine.state.GetCmd? && trace[n].engine.cnt == 0
    requires trace[n].engine.haveAct ==> trace[n].engine.actGap >= ACT_GAP_MIN
    ensures var w := inputs[n].wires;
      && trace[n + 1].engine.addr == w.addr && trace[n + 1].engine.cmd == w.cmd && trace[n + 1].engine.sz == w.sz
      && Core.Pads(trace[n + 2]) == Pins(true, ACTIVATE, w.addr / 8 % 4, w.addr / 0x1000)
  {
    Core.TraceFits(cfg, trace, inputs, n);
    assert trace[n + 1] == Core.Step(cfg, trace[n], inputs[n]);
    assert trace[n + 2] == Core.Step(cfg, trace[n + 1], inputs[n + 1]);
    LatchShows(cfg, trace[n], inputs[n], trace[n + 1], inputs[n + 1]);
  }

  // ---------------------------------------------------------------- room for a block read

  const RETURN_ROOM := 64

  /**
   * After its ACTIVATE a block read is given up exactly if its words and those already waiting for the host would
   * fill half of the return FIFO; NOP and the reserved codes are given up always, other commands never.
   */
  lemma GivenUpAfterActivate(cfg: Core.Config, c: Controller.State, h: Controller.Host)
    requires Inv(cfg.engine, c.core.engine) && c.core.engine.state.Activate? && c.core.engine.cnt == 0 && !h.reset
    ensures var s := c.core.engine;
      Step(cfg.engine, s, Controller.EngineWires(c, h)).state.Idle? <==>
        if s.cmd == CODE_BLR then |c.readBack.items| + 8 * (s.sz + 1) >= RETURN_ROOM
        else s.cmd != CODE_SCR && s.cmd != CODE_SCW && s.cmd != CODE_BLW
  {
    StepEdges(cfg.engine, c.core.engine, Controller.EngineWires(c, h));
  }
}
