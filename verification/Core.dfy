/** The init engine, the protocol engine and the PHY multiplexer, clocked together. */
module Core {
  import opened DdrBus
  import Init = InitEngine
  import Engine = ProtocolEngine
  import opened EngineInvariant
  import Phy

  datatype Config = Config(init: Init.Config, engine: Engine.Config) {
    predicate Valid() { engine.Valid() }
  }

  datatype State = State(init: Init.Registers, engine: Engine.Registers)

  /** The `reset` and `ready` wires of the engine come from here, whatever `wires` holds for them. */
  datatype Inputs = Inputs(reset: bool, initDdr: bool, wires: Engine.Inputs)

  function EngineInputs(c: State, i: Inputs): Engine.Inputs {
    i.wires.(reset := i.reset, ready := c.init.ready)
  }

  function Step(cfg: Config, c: State, i: Inputs): State {
    State(Init.Step(cfg.init, c.init, i.reset, i.initDdr), Engine.Step(cfg.engine, c.engine, EngineInputs(c, i)))
  }

  function Pads(c: State): Pins { Phy.PadPins(c.init, c.engine) }

  /** The state after a reset edge; the registers that reset does not touch are arbitrary. */
  predicate IsReset(cfg: Config, c: State) {
    c.init == Init.RESET && c.engine == Engine.Reset(cfg.engine, c.engine)
  }

  function Run(cfg: Config, start: State, inputs: seq<Inputs>): State {
    if inputs == [] then start else Step(cfg, Run(cfg, start, inputs[..|inputs| - 1]), inputs[|inputs| - 1])
  }

  /** Until the init engine is ready the protocol engine rests in its reset state. */
  predicate Waiting(cfg: Config, s: Engine.Registers) {
    && s.state.Idle? && s.cnt == 0 && s.refCnt == cfg.engine.refreshInit
    && !s.haveAct && s.actGap == 0 && s.burst == 0 && !s.selfRefresh && !s.powerDown && !s.selfRefreshOut
    && s.bus == DESELECT
    && !s.getCmd && !s.getData && !s.putReturn && !s.driveDq
  }

  /** What holds of the two engines in every state reachable from reset. */
  predicate Fits(cfg: Config, c: State) {
    && Inv(cfg.engine, c.engine)
    && if c.init.ready then c.init.state.Ready? else Waiting(cfg, c.engine)
  }

  lemma ResetFits(cfg: Config, c: State)
    requires cfg.Valid() && IsReset(cfg, c)
    ensures Fits(cfg, c)
  {
    ResetKeepsInv(cfg.engine, c.engine);
  }

  lemma StepKeepsWaiting(cfg: Config, c: State, i: Inputs)
    requires Waiting(cfg, c.engine) && !c.init.ready && !i.reset
    ensures Waiting(cfg, Step(cfg, c, i).engine)
  {
  }

  /** READY stays up until reset, and the pins are the engine's own. */
  lemma ReadyStays(cfg: Config, c: State, i: Inputs)
    requires c.init.ready && c.init.state.Ready? && !i.reset
    ensures Step(cfg, c, i).init.ready && Step(cfg, c, i).init.state.Ready?
    ensures Pads(Step(cfg, c, i)) == Phy.EnginePins(Engine.Step(cfg.engine, c.engine, EngineInputs(c, i)))
  {
  }

  lemma ReadyFollowsState(cfg: Config, c: State, i: Inputs)
    requires !c.init.ready && !i.reset && Step(cfg, c, i).init.ready
    ensures Step(cfg, c, i).init.state.Ready?
  {
  }

  lemma StepFits(cfg: Config, c: State, i: Inputs)
    requires cfg.Valid() && Fits(cfg, c)
    ensures Fits(cfg, Step(cfg, c, i))
  {
    if i.reset {
      ResetFits(cfg, Step(cfg, c, i));
    } else {
      StepKeepsInv(cfg.engine, c.engine, EngineInputs(c, i));
      if c.init.ready {
        ReadyStays(cfg, c, i);
      } else if Step(cfg, c, i).init.ready {
        ReadyFollowsState(cfg, c, i);
      } else {
        StepKeepsWaiting(cfg, c, i);
      }
    }
  }

  lemma {:induction false} RunFits(cfg: Config, start: State, inputs: seq<Inputs>)
    requires cfg.Valid() && IsReset(cfg, start)
    ensures Fits(cfg, Run(cfg, start, inputs))
  {
    if inputs == [] {
      ResetFits(cfg, start);
    } else {
      RunFits(cfg, start, inputs[..|inputs| - 1]);
      StepFits(cfg, Run(cfg, start, inputs[..|inputs| - 1]), inputs[|inputs| - 1]);
    }
  }

  // ---------------------------------------------------------------- runs as sequences of states

  /** The states of a run from reset under these inputs. */
  predicate IsTrace(cfg: Config, trace: seq<State>, inputs: seq<Inputs>) {
    && |trace| == |inputs| + 1 && IsReset(cfg, trace[0])
    && forall n: nat {:trigger Step(cfg, trace[n], inputs[n])} :: n < |inputs| ==> trace[n + 1] == Step(cfg, trace[n], inputs[n])
  }

  lemma NextFits(cfg: Config, trace: seq<State>, inputs: seq<Inputs>, n: nat)
    requires cfg.Valid() && IsTrace(cfg, trace, inputs) && n < |inputs| && Fits(cfg, trace[n])
    ensures Fits(cfg, trace[n + 1])
  {
    assert trace[n + 1] == Step(cfg, trace[n], inputs[n]);
    StepFits(cfg, trace[n], inputs[n]);
  }

  lemma {:induction false} TraceKeepsFits(cfg: Config, trace: seq<State>, inputs: seq<Inputs>, n: nat)
    requires cfg.Valid() && IsTrace(cfg, trace, inputs) && n < |trace| && Fits(cfg, trace[0])
    ensures Fits(cfg, trace[n])
  {
    if n > 0 {
      TraceKeepsFits(cfg, trace, inputs, n - 1);
      NextFits(cfg, trace, inputs, n - 1);
    }
  }

  lemma TraceFits(cfg: Config, trace: seq<State>, inputs: seq<Inputs>, n: nat)
    requires cfg.Valid() && IsTrace(cfg, trace, inputs) && n < |trace|
    ensures Fits(cfg, trace[n])
  {
    ResetFits(cfg, trace[0]);
    TraceKeepsFits(cfg, trace, inputs, n);
  }
}
