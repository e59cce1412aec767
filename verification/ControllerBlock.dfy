/** The controller as clocked hardware: three FIFOs, the two engines, and the read path's two flip-flops. */
module ControllerBlock {
  import opened DdrBus
  import opened Fifo
  import opened Controller
  import Core
  import Init = InitEngine
  import Engine = EngineBlock
  import Registers = ProtocolEngine

  /** The wires into the FIFOs and the read path in one cycle. */
  datatype QueueWires = QueueWires(accepts: bool, getCmd: bool, getData: bool, put: bool, word: Return, waiting: bool)

  function WiresOf(c: State, cycle: Cycle): QueueWires {
    QueueWires(Accepts(c, cycle.host), c.core.engine.getCmd, c.core.engine.getData,
               c.core.engine.putReturn, Return(c.core.engine.addrReturn, cycle.dq), c.readBack.items != [])
  }

  lemma Assembles(cfg: Core.Config, c: State, cycle: Cycle, d: State)
    requires d.core == Core.Step(cfg, c.core, CoreInputs(c, cycle.host))
    requires d.commands == Edge(COMMAND_DEPTH, NO_REQUEST, c.commands, cycle.host.reset, Accepts(c, cycle.host), cycle.host.request, c.core.engine.getCmd)
    requires d.data == Edge(DATA_DEPTH, 0, c.data, cycle.host.reset, cycle.host.dataPut, cycle.host.din, c.core.engine.getData)
    requires d.readBack == Edge(RETURN_DEPTH, NO_RETURN, c.readBack, cycle.host.reset, c.core.engine.putReturn,
                                Return(c.core.engine.addrReturn, cycle.dq), cycle.host.fetching)
    requires d.fetchPop == (!cycle.host.reset && cycle.host.fetching && c.readBack.items != [])
    requires d.validOut == (!cycle.host.reset && c.fetchPop)
    ensures d == Step(cfg, c, cycle)
  {
  }

  class Block {
    const cfg: Core.Config
    const init: Init.Block
    const engine: Engine.Block
    const commands: Ring<Request>
    const data: Ring<Word>
    const readBack: Ring<Return>
    var fetchPop: bool
    var validOut: bool

    ghost predicate Valid()
      reads commands, data, readBack
    {
      && init.cfg == cfg.init && engine.cfg == cfg.engine && engine.Valid()
      && commands.Valid() && commands.depth == COMMAND_DEPTH && commands.zero == NO_REQUEST
      && data.Valid() && data.depth == DATA_DEPTH && data.zero == 0
      && readBack.Valid() && readBack.depth == RETURN_DEPTH && readBack.zero == NO_RETURN
    }

    ghost function CoreState(): Core.State
      reads init, engine.flow, engine.command, engine.progress, engine.timers, engine.power, engine.outputs
    {
      Core.State(init.Snapshot(), engine.Snapshot())
    }

    ghost function Snapshot(): State
      reads this, init, engine.flow, engine.command, engine.progress, engine.timers, engine.power, engine.outputs,
            commands, commands.mem, data, data.mem, readBack, readBack.mem
      requires Valid()
    {
      State(CoreState(), commands.Abstract(), data.Abstract(), readBack.Abstract(), fetchPop, validOut)
    }

    /** The engine's registers are arbitrary until the first reset. */
    constructor (cfg: Core.Config, registers: Registers.Registers)
      ensures Valid() && this.cfg == cfg
      ensures Snapshot() == State(Core.State(Init.RESET, registers), Queue([], NO_REQUEST), Queue([], 0), Queue([], NO_RETURN), false, false)
    {
      this.cfg := cfg;
      init := new Init.Block(cfg.init);
      engine := new Engine.Block(cfg.engine, registers);
      commands := new Ring<Request>(6, NO_REQUEST);
      data := new Ring<Word>(6, 0);
      readBack := new Ring<Return>(7, NO_RETURN);
      fetchPop, validOut := false, false;
      new;
      Depths();
    }

    static lemma Depths()
      ensures Power(6) == COMMAND_DEPTH == DATA_DEPTH && Power(7) == RETURN_DEPTH
    {
      assert Power(3) == 8;
      assert Power(6) == 64;
    }

    /** The wires between the parts, from the registers before the edge. */
    method Wires(cycle: Cycle, ghost c: State) returns (inputs: Registers.Inputs, wires: QueueWires)
      requires Valid() && c == Snapshot()
      ensures inputs == EngineWires(c, cycle.host) && wires == WiresOf(c, cycle)
    {
      var h := cycle.host;
      inputs := Registers.Inputs(
        h.reset, init.ready, h.selfRefreshReq, h.selfRefreshExit, h.powerDownReq, h.powerDownExit, h.dllReq, h.dllMode,
        commands.count != 0, commands.dataOut.addr, commands.dataOut.cmd, commands.dataOut.sz, data.dataOut, readBack.count);
      wires := QueueWires(
        h.cmdPut && commands.count != commands.depth, engine.outputs.getCmd, engine.outputs.getData,
        engine.outputs.putReturn, Return(engine.outputs.addrReturn, cycle.dq), readBack.count != 0);
    }

    method ClockEngines(inputs: Core.Inputs, wires: Registers.Inputs)
      requires init.cfg == cfg.init && engine.cfg == cfg.engine && engine.Valid()
      requires wires == Core.EngineInputs(CoreState(), inputs)
      modifies init, engine.flow, engine.command, engine.progress, engine.timers, engine.power, engine.outputs
      ensures CoreState() == Core.Step(cfg, old(CoreState()), inputs)
    {
      init.Clock(inputs.reset, inputs.initDdr);
      engine.Clock(wires);
    }

    method ClockCore(inputs: Core.Inputs, wires: Registers.Inputs)
      requires Valid() && wires == Core.EngineInputs(CoreState(), inputs)
      modifies init, engine.flow, engine.command, engine.progress, engine.timers, engine.power, engine.outputs
      ensures Valid() && CoreState() == Core.Step(cfg, old(CoreState()), inputs)
      ensures commands.Abstract() == old(commands.Abstract()) && data.Abstract() == old(data.Abstract())
      ensures readBack.Abstract() == old(readBack.Abstract())
    {
      ClockEngines(inputs, wires);
    }

    /** The engines move while the FIFOs still hold their old state. */
    method ClockFirst(cycle: Cycle, ghost c: State) returns (wires: QueueWires)
      requires Valid() && c == Snapshot()
      modifies init, engine.flow, engine.command, engine.progress, engine.timers, engine.power, engine.outputs
      ensures Valid() && CoreState() == Core.Step(cfg, c.core, CoreInputs(c, cycle.host))
      ensures commands.Abstract() == c.commands && data.Abstract() == c.data && readBack.Abstract() == c.readBack
      ensures wires == WiresOf(c, cycle) && fetchPop == c.fetchPop
    {
      var inputs;
      inputs, wires := Wires(cycle, c);
      ClockCore(Core.Inputs(cycle.host.reset, cycle.host.initDdr, inputs), inputs);
    }

    method ClockFifos(h: Host, w: QueueWires, ghost c: State)
      requires Valid() && fetchPop == c.fetchPop
      requires commands.Abstract() == c.commands && data.Abstract() == c.data && readBack.Abstract() == c.readBack
      modifies this`fetchPop, this`validOut, commands, commands.mem, data, data.mem, readBack, readBack.mem
      ensures Valid()
      ensures commands.Abstract() == Edge(COMMAND_DEPTH, NO_REQUEST, c.commands, h.reset, w.accepts, h.request, w.getCmd)
      ensures data.Abstract() == Edge(DATA_DEPTH, 0, c.data, h.reset, h.dataPut, h.din, w.getData)
      ensures readBack.Abstract() == Edge(RETURN_DEPTH, NO_RETURN, c.readBack, h.reset, w.put, w.word, h.fetching)
      ensures fetchPop == (!h.reset && h.fetching && w.waiting) && validOut == (!h.reset && c.fetchPop)
    {
      commands.Clock(h.reset, h.request, w.accepts, w.getCmd);
      data.Clock(h.reset, h.din, h.dataPut, w.getData);
      readBack.Clock(h.reset, w.word, w.put, h.fetching);
      fetchPop, validOut := !h.reset && h.fetching && w.waiting, !h.reset && fetchPop;
    }

    /** The engines do not move meanwhile. */
    method ClockQueues(h: Host, w: QueueWires, ghost c: State)
      requires Valid() && fetchPop == c.fetchPop
      requires commands.Abstract() == c.commands && data.Abstract() == c.data && readBack.Abstract() == c.readBack
      modifies this`fetchPop, this`validOut, commands, commands.mem, data, data.mem, readBack, readBack.mem
      ensures Valid()
      ensures commands.Abstract() == Edge(COMMAND_DEPTH, NO_REQUEST, c.commands, h.reset, w.accepts, h.request, w.getCmd)
      ensures data.Abstract() == Edge(DATA_DEPTH, 0, c.data, h.reset, h.dataPut, h.din, w.getData)
      ensures readBack.Abstract() == Edge(RETURN_DEPTH, NO_RETURN, c.readBack, h.reset, w.put, w.word, h.fetching)
      ensures fetchPop == (!h.reset && h.fetching && w.waiting) && validOut == (!h.reset && c.fetchPop)
      ensures CoreState() == old(CoreState())
    {
      ClockFifos(h, w, c);
    }

    method ClockFrom(cycle: Cycle, ghost c: State)
      requires Valid() && c == Snapshot()
      modifies this`fetchPop, this`validOut, init, engine.flow, engine.command, engine.progress, engine.timers, engine.power, engine.outputs,
               commands, commands.mem, data, data.mem, readBack, readBack.mem
      ensures Valid() && Snapshot() == Step(cfg, c, cycle)
    {
      var wires := ClockFirst(cycle, c);
      ClockQueues(cycle.host, wires, c);
      Assembles(cfg, c, cycle, Snapshot());
    }

    /** One clock edge. */
    method Clock(cycle: Cycle)
      requires Valid()
      modifies this`fetchPop, this`validOut, init, engine.flow, engine.command, engine.progress, engine.timers, engine.power, engine.outputs,
               commands, commands.mem, data, data.mem, readBack, readBack.mem
      ensures Valid() && Snapshot() == Step(cfg, old(Snapshot()), cycle)
    {
      ghost var c := Snapshot();
      ClockFrom(cycle, c);
    }
  }
}
