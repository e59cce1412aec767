/** What IDLE does with its requests, all of them at once, in terms of the wires and the registers. */
module Arbitration {
  import opened ProtocolEngine
  import opened EngineInvariant

  predicate Due(cfg: Config, s: Registers) { s.refCnt < cfg.refreshUrgent }

  /** By the host, or by the engine itself after a quiet while. */
  predicate WantsSelfRefresh(s: Registers, i: Inputs) { i.selfRefreshReq || s.autoReq }

  /** A DLL change has to wait for one under way, for a refresh that is due and for commands. */
  predicate WantsDll(cfg: Config, s: Registers, i: Inputs) { i.dllReq && !s.dllInProgress && !Due(cfg, s) && !i.cmdAvailable }

  predicate WantsPowerDown(cfg: Config, s: Registers, i: Inputs) { i.powerDownReq && !Due(cfg, s) }

  /**
   * Self-refresh goes first, refresh due or not. A refresh that is due beats everything else. Then come a DLL
   * change, power-down and commands, in this order; nothing is started before READY.
   */
  lemma IdleDecides(cfg: Config, s: Registers, i: Inputs)
    requires Inv(cfg, s) && s.state.Idle? && !i.reset
    ensures var t := Step(cfg, s, i);
      && (t.state.SrefPre? <==> i.ready && WantsSelfRefresh(s, i))
      && (t.state.RPre? <==> i.ready && !WantsSelfRefresh(s, i) && Due(cfg, s))
      && (t.state.DllPre? <==> i.ready && !WantsSelfRefresh(s, i) && WantsDll(cfg, s, i))
      && (t.state.PdPre? <==> i.ready && !WantsSelfRefresh(s, i) && !WantsDll(cfg, s, i) && WantsPowerDown(cfg, s, i))
      && (t.state.GetCmd? <==>
            i.ready && !WantsSelfRefresh(s, i) && !Due(cfg, s) && !WantsPowerDown(cfg, s, i) && i.cmdAvailable)
      && (t.state.Idle? <==>
            !i.ready || (!WantsSelfRefresh(s, i) && !Due(cfg, s) && !WantsDll(cfg, s, i) && !i.powerDownReq && !i.cmdAvailable))
    ensures var t := Step(cfg, s, i);
      && (t.getCmd <==> t.state.GetCmd?)
      && t.dllInProgress == (s.dllInProgress || t.state.DllPre?)
      && t.dllMode == (if t.state.DllPre? then i.dllMode else s.dllMode)
  {
    StepEdges(cfg, s, i);
  }

  // Two requests at the same time, nothing else being asked for.

  lemma SelfRefreshBeatsAll(cfg: Config, s: Registers, i: Inputs)
    requires Inv(cfg, s) && s.state.Idle? && !i.reset && i.ready && i.selfRefreshReq
    ensures Step(cfg, s, i).state.SrefPre?
  {
    IdleDecides(cfg, s, i);
  }

  lemma RefreshBeatsTheRest(cfg: Config, s: Registers, i: Inputs)
    requires Inv(cfg, s) && s.state.Idle? && !i.reset && i.ready && !i.selfRefreshReq && !s.autoReq && Due(cfg, s)
    ensures Step(cfg, s, i).state.RPre?
  {
    IdleDecides(cfg, s, i);
  }

  /** The comment above the arbitration names power-down before the DLL; the code looks at the DLL first. */
  lemma DllBeatsPowerDown(cfg: Config, s: Registers, i: Inputs)
    requires Inv(cfg, s) && s.state.Idle? && !i.reset && i.ready && !i.selfRefreshReq && !s.autoReq && !Due(cfg, s)
    requires i.dllReq && i.powerDownReq && !s.dllInProgress
    ensures Step(cfg, s, i).state == if i.cmdAvailable then PdPre else DllPre
  {
    IdleDecides(cfg, s, i);
  }

  lemma CommandsComeLast(cfg: Config, s: Registers, i: Inputs)
    requires Inv(cfg, s) && s.state.Idle? && !i.reset && i.ready && !i.selfRefreshReq && !s.autoReq && !Due(cfg, s) && i.cmdAvailable
    ensures Step(cfg, s, i).state == if i.powerDownReq then PdPre else GetCmd
  {
    IdleDecides(cfg, s, i);
  }
}
