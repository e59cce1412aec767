/** The controller and the memory model on one set of pins. */
module System {
  import opened DdrBus
  import opened SimpleMem
  import Controller
  import Core

  datatype Config = Config(core: Core.Config, mem: SimpleMem.Config) {
    /** The read wait is two cycles shorter than the memory's latency. */
    predicate Valid() {
      core.Valid() && mem.Valid() && mem.readLatency == core.engine.readWait + 2
    }
  }

  datatype State = State(controller: Controller.State, mem: Memory) {
    predicate Valid(cfg: Config) { mem.Valid(cfg.mem) }
  }

  /** One cycle: the host's wires, and whatever is read off DQ lines that nobody drives. */
  datatype Cycle = Cycle(host: Controller.Host, noise: Word)

  predicate Contention(x: State) { x.mem.rdDrive && x.controller.core.engine.driveDq }

  function DqLines(x: State): Dq {
    if x.mem.rdDrive then Driven(x.mem.rdData)
    else if x.controller.core.engine.driveDq then Driven(x.controller.core.engine.dq)
    else Floating
  }

  function Captured(x: State, noise: Word): Word {
    match DqLines(x) case Driven(w) => w case Floating => noise
  }

  function Step(cfg: Config, x: State, cycle: Cycle): (y: State)
    requires x.Valid(cfg)
    ensures y.Valid(cfg)
  {
    State(Controller.Step(cfg.core, x.controller, Controller.Cycle(cycle.host, Captured(x, cycle.noise))),
          SimpleMem.Step(cfg.mem, x.mem, Core.Pads(x.controller.core), DqLines(x)))
  }
}
