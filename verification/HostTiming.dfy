/**
 * What a host has to do for the timing monitor to stay content: enqueue only the four commands and keep
 * fetching. No block read is then ever dropped, and no row is closed early.
 */
module HostTiming {
  import opened DdrBus
  import opened Fifo
  import opened Controller
  import opened CommandOrder
  import opened EngineInvariant
  import Engine = ProtocolEngine
  import Init = InitEngine
  import Timing = TimingSafety
  import Checker = TimingChecker
  import Runs = TimingRuns
  import Core

  predicate RealCommand(cmd: Engine.Code) { Engine.CODE_SCR <= cmd <= Engine.CODE_BLW }

  /** The host keeps FETCHING up and enqueues nothing but SCR, SCW, BLR and BLW. */
  predicate Polite(h: Host) { h.fetching && (h.cmdPut ==> RealCommand(h.request.cmd)) }

  predicate AllPolite(cycles: seq<Cycle>) { forall k :: 0 <= k < |cycles| ==> Polite(cycles[k].host) }

  /** Whatever waits or runs is a real command, and the return FIFO never holds more than one word. */
  predicate QueuesPolite(c: State) {
    var s := c.core.engine;
    && |c.readBack.items| <= 1
    && (forall k :: 0 <= k < |c.commands.items| ==> RealCommand(c.commands.items[k].cmd))
    && (s.state.GetCmd? && s.cnt < Engine.GETCMD_WAIT ==> RealCommand(c.commands.out.cmd))
    && (s.state.Activate? ==> RealCommand(s.cmd))
  }

  lemma ActivateHolds(cfg: Engine.Config, s: Engine.Registers, i: Engine.Inputs, t: Engine.Registers)
    requires CommandFits(s) && FlowEdge(cfg, s, i, t) && CommandEdge(s, i, t) && t.state.Activate?
    ensures if Engine.Latches(s) then t.cmd == i.cmd else s.state.Activate? && t.cmd == s.cmd
  {
  }

  lemma StepStaysPolite(cfg: Core.Config, b: Bench, cycle: Cycle)
    requires cfg.Valid() && BenchFits(cfg, b) && QueuesPolite(b.state) && Polite(cycle.host)
    ensures QueuesPolite(Controller.Step(cfg, b.state, cycle))
  {
    if !cycle.host.reset {
      var n := BenchStep(cfg, b, cycle);
      var s := b.state.core.engine;
      var wires := EngineWires(b.state, cycle.host);
      StepQueues(cfg, b, cycle);
      EngineStepFits(cfg, b, cycle, n);
      StepEdges(cfg.engine, s, wires);
      QueuesStayPolite(cfg, b.state, cycle.host, n.state);
    }
  }

  lemma QueuesStayPolite(cfg: Core.Config, c: State, h: Host, n: State)
    requires QueuesPolite(c) && Polite(h) && PopFits(c) && CommandFits(c.core.engine)
    requires FlowEdge(cfg.engine, c.core.engine, EngineWires(c, h), n.core.engine)
    requires CommandEdge(c.core.engine, EngineWires(c, h), n.core.engine)
    requires Moves(c.core.engine, EngineWires(c, h), n.core.engine)
    requires n.commands == Clocked(COMMAND_DEPTH, c.commands, Accepts(c, h), h.request, c.core.engine.getCmd)
    requires exists put, x :: n.readBack == Clocked(RETURN_DEPTH, c.readBack, put, x, h.fetching)
    ensures QueuesPolite(n)
  {
    if n.core.engine.state.Activate? {
      ActivateHolds(cfg.engine, c.core.engine, EngineWires(c, h), n.core.engine);
    }
  }

  lemma PoliteNeverEarly(cfg: Core.Config, c: State, h: Host)
    requires cfg.engine.readWait >= Timing.BLOCK_READ_WAIT_MIN && QueuesPolite(c)
    ensures !Timing.EarlyReturn(cfg.engine, c.core.engine, EngineWires(c, h))
  {
  }

  /** The bench of the timing monitor, driven by the controller. */
  function Start(c: State): (b: Runs.Bench)
    ensures b.monitor.Valid()
  {
    Runs.Bench(c.core, Checker.RESET)
  }

  lemma {:induction false} BenchFollows(cfg: Core.Config, c: State, cycles: seq<Cycle>)
    ensures Runs.BenchRun(cfg, Start(c), CoreRun(cfg, c, cycles)).core == Controller.Run(cfg, c, cycles).core
  {
    if cycles != [] {
      BenchFollows(cfg, c, cycles[..|cycles| - 1]);
      CoreRunStep(cfg, c, cycles);
    }
  }

  lemma {:induction false} RunStaysPolite(cfg: Core.Config, start: State, cycles: seq<Cycle>)
    requires cfg.Valid() && IsReset(cfg, start) && AllPolite(cycles)
    ensures QueuesPolite(Controller.Run(cfg, start, cycles))
  {
    if cycles != [] {
      var before := cycles[..|cycles| - 1];
      RunStaysPolite(cfg, start, before);
      ExactlyOnceInOrder(cfg, start, before);
      StepStaysPolite(cfg, BenchRun(cfg, start, before), cycles[|cycles| - 1]);
    }
  }

  lemma {:induction false} NothingReturnsEarly(cfg: Core.Config, start: State, cycles: seq<Cycle>)
    requires cfg.Valid() && cfg.engine.readWait >= Timing.BLOCK_READ_WAIT_MIN
    requires IsReset(cfg, start) && AllPolite(cycles)
    ensures Runs.NoEarlyReturn(cfg, Start(start), CoreRun(cfg, start, cycles))
  {
    if cycles != [] {
      var before := cycles[..|cycles| - 1];
      NothingReturnsEarly(cfg, start, before);
      RunStaysPolite(cfg, start, before);
      BenchFollows(cfg, start, before);
      CoreRunStep(cfg, start, cycles);
      PoliteNeverEarly(cfg, Controller.Run(cfg, start, before), cycles[|cycles| - 1].host);
    }
  }

  /**
   * Timing safety of the whole controller: with a polite host, whatever it does with low power, DLL
   * changes and reset, the monitor finds nothing for 2^32 cycles.
   */
  lemma PoliteHostIsSafe(cfg: Core.Config, start: State, cycles: seq<Cycle>)
    requires cfg.Valid() && cfg.engine.readWait >= Timing.BLOCK_READ_WAIT_MIN && cfg.init.trfc >= Checker.TRFC_MIN
    requires IsReset(cfg, start) && AllPolite(cycles) && |cycles| < Checker.CYCLE_WRAP
    ensures var b := Runs.BenchRun(cfg, Start(start), CoreRun(cfg, start, cycles));
      && b.core == Controller.Run(cfg, start, cycles).core
      && !Checker.Violates(b.monitor, Core.Pads(b.core))
  {
    BenchFollows(cfg, start, cycles);
    NothingReturnsEarly(cfg, start, cycles);
    Runs.SafeBeforeWrap(cfg, Start(start), CoreRun(cfg, start, cycles));
  }

  /** The default configuration meets every condition. */
  lemma DefaultsAreSafe()
    ensures Engine.DefaultConfig().Valid() && Engine.DefaultConfig().readWait >= Timing.BLOCK_READ_WAIT_MIN
    ensures Init.DefaultConfig().trfc >= Checker.TRFC_MIN
  {
  }
}
