/**
 * The same at the boundary of the controller: what the host's own wires start and end, with the queues in between.
 * Every run of the controller is a run of its core.
 */
module HostWires {
  import opened DdrBus
  import opened Controller
  import opened Maintenance
  import Engine = ProtocolEngine
  import Sequence = InitSequence
  import InitPads
  import Visits
  import Core

  /** The states of a run from reset. */
  predicate IsTrace(cfg: Core.Config, trace: seq<State>, cycles: seq<Cycle>) {
    && |trace| == |cycles| + 1 && IsReset(cfg, trace[0])
    && forall n: nat {:trigger Step(cfg, trace[n], cycles[n])} :: n < |cycles| ==> trace[n + 1] == Step(cfg, trace[n], cycles[n])
  }

  function Cores(trace: seq<State>): (cores: seq<Core.State>)
    ensures |cores| == |trace| && forall n :: 0 <= n < |trace| ==> cores[n] == trace[n].core
  {
    seq(|trace|, n requires 0 <= n < |trace| => trace[n].core)
  }

  function Wires(trace: seq<State>, cycles: seq<Cycle>): (inputs: seq<Core.Inputs>)
    requires |trace| > |cycles|
    ensures |inputs| == |cycles| && forall n :: 0 <= n < |cycles| ==> inputs[n] == CoreInputs(trace[n], cycles[n].host)
  {
    seq(|cycles|, n requires 0 <= n < |cycles| => CoreInputs(trace[n], cycles[n].host))
  }

  lemma CoreStep(cfg: Core.Config, c: State, cycle: Cycle)
    ensures Step(cfg, c, cycle).core == Core.Step(cfg, c.core, CoreInputs(c, cycle.host))
  {
  }

  lemma CoresFollow(cfg: Core.Config, trace: seq<State>, cycles: seq<Cycle>)
    requires IsTrace(cfg, trace, cycles)
    ensures Core.IsTrace(cfg, Cores(trace), Wires(trace, cycles))
  {
    var cores := Cores(trace);
    var inputs := Wires(trace, cycles);
    forall n: nat | n < |inputs|
      ensures cores[n + 1] == Core.Step(cfg, cores[n], inputs[n])
    {
      assert trace[n + 1] == Step(cfg, trace[n], cycles[n]);
      CoreStep(cfg, trace[n], cycles[n]);
    }
  }

  // ---------------------------------------------------------------- requests

  /** The host's wires, the command queue and the refresh counter decide for an errand. */
  predicate HostDecides(cfg: Core.Config, e: Errand, c: State, h: Host) {
    var s := c.core.engine;
    var selfRefresh := h.selfRefreshReq || s.autoReq;
    var due := s.refCnt < cfg.engine.refreshUrgent;
    var dll := h.dllReq && !s.dllInProgress && !due && c.commands.items == [];
    && s.state.Idle? && c.core.init.ready && !h.reset
    && match e
      case SelfRefreshing => selfRefresh
      case Refreshing => !selfRefresh && due
      case Relocking(off) => !selfRefresh && dll && h.dllMode == off
      case PoweringDown => !selfRefresh && !dll && h.powerDownReq && !due
  }

  predicate HostLets(e: Errand, h: Host) {
    !h.reset && (e.SelfRefreshing? ==> !h.selfRefreshExit) && (e.PoweringDown? ==> !h.powerDownExit)
  }

  lemma HostDecidesErrand(cfg: Core.Config, e: Errand, c: State, h: Host)
    requires HostDecides(cfg, e, c, h)
    ensures Decides(cfg.engine, e, c.core.engine, Core.EngineInputs(c.core, CoreInputs(c, h)))
  {
  }

  lemma HostLetsErrand(e: Errand, c: State, h: Host)
    requires HostLets(e, h)
    ensures GoesOn(e, Core.EngineInputs(c.core, CoreInputs(c, h)))
  {
  }

  /** What the host asked for runs its course on the pads; DLL_BUSY and the mode outputs go with it. */
  lemma HostErrandsRun(cfg: Core.Config, e: Errand, trace: seq<State>, cycles: seq<Cycle>, n: nat, k: nat)
    requires cfg.Valid() && IsTrace(cfg, trace, cycles) && n + k < |cycles| && WithinLength(cfg.engine, e, k)
    requires HostDecides(cfg, e, trace[n], cycles[n].host)
    requires forall j :: n < j <= n + k ==> HostLets(e, cycles[j].host)
    ensures OnCourse(cfg, e, k, trace[n + 1 + k].core)
  {
    var cores := Cores(trace);
    var inputs := Wires(trace, cycles);
    CoresFollow(cfg, trace, cycles);
    HostDecidesErrand(cfg, e, trace[n], cycles[n].host);
    forall j: nat | n < j <= n + k
      ensures GoesOnAt(e, cores, inputs, j)
    {
      HostLetsErrand(e, trace[j], cycles[j].host);
    }
    ErrandsRun(cfg, e, cores, inputs, n, k);
  }

  /** And it ends when the host asks for its end. */
  lemma HostVisitsEnd(cfg: Core.Config, e: Errand, trace: seq<State>, cycles: seq<Cycle>, n: nat, k: nat)
    requires cfg.Valid() && IsTrace(cfg, trace, cycles) && n + k < |cycles| && (e.SelfRefreshing? || e.PoweringDown?)
    requires Visits.Waits(e, trace[n].core.engine.state) && !cycles[n].host.reset
    requires if e.SelfRefreshing? then cycles[n].host.selfRefreshExit else cycles[n].host.powerDownExit
    requires k <= Visits.ExitWait(cfg.engine, e) + 1 && forall j :: n < j <= n + k ==> !cycles[j].host.reset
    ensures Visits.LeavesOn(cfg, e, k, trace[n + 1 + k].core)
  {
    CoresFollow(cfg, trace, cycles);
    Visits.VisitsEnd(cfg, e, Cores(trace), Wires(trace, cycles), n, k);
  }

  /** The host's start request initialises the device on schedule. */
  lemma HostInitialises(cfg: Core.Config, trace: seq<State>, cycles: seq<Cycle>, n: nat)
    requires cfg.Valid() && IsTrace(cfg, trace, cycles) && 0 < n < |cycles|
    requires cycles[0].host.initDdr && forall k :: 0 <= k < |cycles| ==> !cycles[k].host.reset
    ensures var p := Core.Pads(trace[n + 1].core);
      && (n < Sequence.Latency(cfg.init) ==>
            InitPads.ShowsDue(cfg.init, p, n) && (p.cke <==> n >= Sequence.CkeTime(cfg.init)))
      && (trace[n + 1].core.init.ready <==> n >= Sequence.Latency(cfg.init))
  {
    CoresFollow(cfg, trace, cycles);
    InitPads.PadsOnSchedule(cfg, Cores(trace), Wires(trace, cycles), n);
  }
}
