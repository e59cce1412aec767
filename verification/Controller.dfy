/**
 * The controller: command, data and return FIFOs around the engines and the PHY multiplexer, and the
 * registered read path to the host.
 */
module Controller {
  import opened DdrBus
  import opened Fifo
  import Engine = ProtocolEngine
  import Core

  type Address = Engine.Address

  datatype Request = Request(addr: Address, cmd: Engine.Code, sz: Engine.Size)

  datatype Return = Return(addr: Address, word: Word)

  const COMMAND_DEPTH := 64
  const DATA_DEPTH := 64
  const RETURN_DEPTH := 128

  const NO_REQUEST := Request(0, 0, 0)
  const NO_RETURN := Return(0, 0)

  /** What the host drives in one cycle. */
  datatype Host = Host(
    reset: bool, initDdr: bool,
    selfRefreshReq: bool, selfRefreshExit: bool, powerDownReq: bool, powerDownExit: bool,
    dllReq: bool, dllMode: bool,
    request: Request, cmdPut: bool,
    din: Word, dataPut: bool,
    fetching: bool
  )

  /** One cycle at the controller's boundary: the host's wires and what the PHY captures from DQ. */
  datatype Cycle = Cycle(host: Host, dq: Word)

  datatype State = State(
    core: Core.State,
    commands: Queue<Request>, data: Queue<Word>, readBack: Queue<Return>,
    fetchPop: bool, validOut: bool
  )

  predicate NotFull(c: State) { |c.commands.items| < COMMAND_DEPTH }

  predicate Accepts(c: State, h: Host) { h.cmdPut && NotFull(c) }

  function EngineWires(c: State, h: Host): Engine.Inputs {
    Engine.Inputs(
      reset := h.reset, ready := c.core.init.ready,
      selfRefreshReq := h.selfRefreshReq, selfRefreshExit := h.selfRefreshExit,
      powerDownReq := h.powerDownReq, powerDownExit := h.powerDownExit,
      dllReq := h.dllReq, dllMode := h.dllMode,
      cmdAvailable := c.commands.items != [],
      addr := c.commands.out.addr, cmd := c.commands.out.cmd, sz := c.commands.out.sz,
      din := c.data.out, returnFill := |c.readBack.items|)
  }

  function CoreInputs(c: State, h: Host): Core.Inputs { Core.Inputs(h.reset, h.initDdr, EngineWires(c, h)) }

  function Step(cfg: Core.Config, c: State, cycle: Cycle): State {
    var h := cycle.host;
    var engine := c.core.engine;
    State(
      Core.Step(cfg, c.core, CoreInputs(c, h)),
      Edge(COMMAND_DEPTH, NO_REQUEST, c.commands, h.reset, Accepts(c, h), h.request, engine.getCmd),
      Edge(DATA_DEPTH, 0, c.data, h.reset, h.dataPut, h.din, engine.getData),
      Edge(RETURN_DEPTH, NO_RETURN, c.readBack, h.reset, engine.putReturn, Return(engine.addrReturn, cycle.dq), h.fetching),
      !h.reset && h.fetching && c.readBack.items != [],
      !h.reset && c.fetchPop)
  }

  predicate IsReset(cfg: Core.Config, c: State) {
    && Core.IsReset(cfg, c.core)
    && c.commands == Queue([], NO_REQUEST) && c.data == Queue([], 0) && c.readBack == Queue([], NO_RETURN)
    && !c.fetchPop && !c.validOut
  }

  function Run(cfg: Core.Config, start: State, cycles: seq<Cycle>): State {
    if cycles == [] then start else Step(cfg, Run(cfg, start, cycles[..|cycles| - 1]), cycles[|cycles| - 1])
  }

  /** The engine sees the host through the FIFOs: every run of the controller is a run of its core. */
  function CoreRun(cfg: Core.Config, start: State, cycles: seq<Cycle>): (inputs: seq<Core.Inputs>)
    ensures |inputs| == |cycles|
  {
    if cycles == [] then []
    else
      var before := cycles[..|cycles| - 1];
      CoreRun(cfg, start, before) + [CoreInputs(Run(cfg, start, before), cycles[|cycles| - 1].host)]
  }

  lemma CoreRunStep(cfg: Core.Config, start: State, cycles: seq<Cycle>)
    requires cycles != []
    ensures var before := cycles[..|cycles| - 1];
      var inputs := CoreRun(cfg, start, cycles);
      && inputs[..|inputs| - 1] == CoreRun(cfg, start, before)
      && inputs[|inputs| - 1] == CoreInputs(Run(cfg, start, before), cycles[|cycles| - 1].host)
  {
  }

  lemma {:induction false} CoreRunFollows(cfg: Core.Config, start: State, cycles: seq<Cycle>)
    ensures Core.Run(cfg, start.core, CoreRun(cfg, start, cycles)) == Run(cfg, start, cycles).core
  {
    if cycles != [] {
      CoreRunFollows(cfg, start, cycles[..|cycles| - 1]);
      CoreRunStep(cfg, start, cycles);
    }
  }
}

/** Accepted commands are executed exactly once, in order. */
module CommandOrder {
  import opened DdrBus
  import opened Fifo
  import opened Controller
  import opened EngineInvariant
  import Engine = ProtocolEngine
  import Core

  /** The commands accepted and the commands latched by the engine since reset. */
  datatype Log = Log(accepted: seq<Request>, latched: seq<Request>)

  datatype Bench = Bench(state: State, log: Log)

  function BenchStep(cfg: Core.Config, b: Bench, cycle: Cycle): Bench {
    var c := b.state;
    var s := c.core.engine;
    Bench(Controller.Step(cfg, c, cycle),
          if cycle.host.reset then Log([], [])
          else Log(b.log.accepted + (if Accepts(c, cycle.host) then [cycle.host.request] else []),
                   b.log.latched + (if Engine.Latches(s) then [c.commands.out] else [])))
  }

  function BenchRun(cfg: Core.Config, start: State, cycles: seq<Cycle>): Bench {
    if cycles == [] then Bench(start, Log([], []))
    else BenchStep(cfg, BenchRun(cfg, start, cycles[..|cycles| - 1]), cycles[|cycles| - 1])
  }

  /** The command popped from the FIFO and not yet latched. */
  function InFlight(c: State): seq<Request> {
    if c.core.engine.state.GetCmd? && c.core.engine.cnt < Engine.GETCMD_WAIT then [c.commands.out] else []
  }

  /** A pop is only ever asked for on the way into GETCMD, and only from a queue that has a command. */
  predicate PopFits(c: State) {
    var s := c.core.engine;
    && (s.getCmd <==> s.state.GetCmd? && s.cnt == Engine.GETCMD_WAIT)
    && (s.getCmd ==> c.commands.items != [])
  }

  predicate LastLatched(s: Engine.Registers, latched: seq<Request>) {
    s.haveAct ==> latched != [] && latched[|latched| - 1] == Request(s.addr, s.cmd, s.sz)
  }

  predicate InOrder(b: Bench) { b.log.accepted == b.log.latched + InFlight(b.state) + b.state.commands.items }

  predicate BenchFits(cfg: Core.Config, b: Bench) {
    && Core.Fits(cfg, b.state.core) && PopFits(b.state)
    && InOrder(b) && LastLatched(b.state.core.engine, b.log.latched)
    && |b.state.commands.items| <= COMMAND_DEPTH
  }

  lemma ResetFits(cfg: Core.Config, c: State)
    requires cfg.Valid() && IsReset(cfg, c)
    ensures BenchFits(cfg, Bench(c, Log([], [])))
  {
    Core.ResetFits(cfg, c.core);
  }

  /** How the engine moves a command from the queue to its registers. */
  predicate Moves(s: Engine.Registers, i: Engine.Inputs, t: Engine.Registers) {
    && (t.getCmd <==> t.state.GetCmd? && t.cnt == Engine.GETCMD_WAIT)
    && (t.getCmd ==> i.cmdAvailable)
    && (t.state.GetCmd? && t.cnt < Engine.GETCMD_WAIT <==> s.state.GetCmd? && !Engine.Latches(s))
    && (s.state.GetCmd? ==> s.cnt <= Engine.GETCMD_WAIT)
    && (t.haveAct ==> s.haveAct || Engine.Latches(s))
  }

  lemma EngineMoves(cfg: Engine.Config, s: Engine.Registers, i: Engine.Inputs, t: Engine.Registers)
    requires cfg.Valid() && CommandFits(s) && CountFits(cfg, s) && TimersFit(cfg, s)
    requires FlowEdge(cfg, s, i, t) && DriveEdge(cfg, s, i, t) && TimerEdge(cfg, s, i, t)
    ensures Moves(s, i, t)
  {
  }

  lemma StepInOrder(b: Bench, n: Bench, h: Host)
    requires InOrder(b) && PopFits(b.state) && |b.state.commands.items| <= COMMAND_DEPTH
    requires Moves(b.state.core.engine, EngineWires(b.state, h), n.state.core.engine) && !h.reset
    requires n.state.commands == Clocked(COMMAND_DEPTH, b.state.commands, Accepts(b.state, h), h.request, b.state.core.engine.getCmd)
    requires n.log == Log(b.log.accepted + (if Accepts(b.state, h) then [h.request] else []),
                          b.log.latched + (if Engine.Latches(b.state.core.engine) then [b.state.commands.out] else []))
    ensures InOrder(n) && PopFits(n.state) && |n.state.commands.items| <= COMMAND_DEPTH
  {
    var q := b.state.commands;
    var s := b.state.core.engine;
    var added := if Accepts(b.state, h) then [h.request] else [];
    if s.getCmd {
      assert n.log.latched == b.log.latched;
      assert Clocked(COMMAND_DEPTH, q, Accepts(b.state, h), h.request, true).out == q.items[0];
      assert b.log.latched + [] + q.items + added == b.log.latched + [q.items[0]] + (q.items[1..] + added);
    } else if Engine.Latches(s) {
      assert b.log.latched + [q.out] + q.items + added == (b.log.latched + [q.out]) + [] + (q.items + added);
    } else {
      assert InFlight(b.state) == InFlight(n.state);
      assert b.log.latched + InFlight(b.state) + q.items + added == b.log.latched + InFlight(b.state) + (q.items + added);
    }
  }

  lemma LatchIsLast(cfg: Engine.Config, s: Engine.Registers, i: Engine.Inputs, t: Engine.Registers, latched: seq<Request>)
    requires LastLatched(s, latched) && Moves(s, i, t)
    requires DataEdge(s, i, t) && CommandEdge(s, i, t)
    ensures LastLatched(t, latched + if Engine.Latches(s) then [Request(i.addr, i.cmd, i.sz)] else [])
  {
  }

  /** A step, apart from the registers of the core, in terms of the queues and the log. */
  lemma StepQueues(cfg: Core.Config, b: Bench, cycle: Cycle)
    requires !cycle.host.reset
    ensures var n := BenchStep(cfg, b, cycle);
      var h := cycle.host;
      && n.state.core == Core.Step(cfg, b.state.core, CoreInputs(b.state, h))
      && n.state.core.engine == Engine.Step(cfg.engine, b.state.core.engine, EngineWires(b.state, h))
      && n.state.commands == Clocked(COMMAND_DEPTH, b.state.commands, Accepts(b.state, h), h.request, b.state.core.engine.getCmd)
      && n.state.data == Clocked(DATA_DEPTH, b.state.data, h.dataPut, h.din, b.state.core.engine.getData)
      && n.log.accepted == b.log.accepted + (if Accepts(b.state, h) then [h.request] else [])
      && n.log.latched == b.log.latched + (if Engine.Latches(b.state.core.engine) then [b.state.commands.out] else [])
  {
    assert Core.EngineInputs(b.state.core, CoreInputs(b.state, cycle.host)) == EngineWires(b.state, cycle.host);
  }

  lemma EngineStepFits(cfg: Core.Config, b: Bench, cycle: Cycle, n: Bench)
    requires cfg.Valid() && BenchFits(cfg, b) && !cycle.host.reset && n == BenchStep(cfg, b, cycle)
    ensures Moves(b.state.core.engine, EngineWires(b.state, cycle.host), n.state.core.engine)
    ensures LastLatched(n.state.core.engine, n.log.latched)
  {
    var s := b.state.core.engine;
    var wires := EngineWires(b.state, cycle.host);
    StepQueues(cfg, b, cycle);
    StepEdges(cfg.engine, s, wires);
    EngineMoves(cfg.engine, s, wires, n.state.core.engine);
    LatchIsLast(cfg.engine, s, wires, n.state.core.engine, b.log.latched);
  }

  lemma StepFits(cfg: Core.Config, b: Bench, cycle: Cycle)
    requires cfg.Valid() && BenchFits(cfg, b)
    ensures BenchFits(cfg, BenchStep(cfg, b, cycle))
  {
    var n := BenchStep(cfg, b, cycle);
    if cycle.host.reset {
      ResetFits(cfg, n.state);
    } else {
      Core.StepFits(cfg, b.state.core, CoreInputs(b.state, cycle.host));
      StepQueues(cfg, b, cycle);
      EngineStepFits(cfg, b, cycle, n);
      StepInOrder(b, n, cycle.host);
    }
  }

  /**
   * On every run from reset: the commands latched by the engine, the one in flight and those still queued
   * are exactly the commands accepted under NOTFULL, in order; the engine works on the last one latched.
   */
  lemma {:induction false} ExactlyOnceInOrder(cfg: Core.Config, start: State, cycles: seq<Cycle>)
    requires cfg.Valid() && IsReset(cfg, start)
    ensures BenchFits(cfg, BenchRun(cfg, start, cycles))
    ensures BenchRun(cfg, start, cycles).state == Controller.Run(cfg, start, cycles)
    ensures var b := BenchRun(cfg, start, cycles); b.log.accepted == b.log.latched + InFlight(b.state) + b.state.commands.items
  {
    if cycles == [] {
      ResetFits(cfg, start);
    } else {
      ExactlyOnceInOrder(cfg, start, cycles[..|cycles| - 1]);
      StepFits(cfg, BenchRun(cfg, start, cycles[..|cycles| - 1]), cycles[|cycles| - 1]);
    }
  }
}
