/** How a visit to self-refresh or power-down ends, cycle by cycle, and what comes first after it. */
module Visits {
  import opened DdrBus
  import opened ProtocolEngine
  import opened EngineInvariant
  import opened Arbitration
  import opened Maintenance
  import Core

  function ExitWait(cfg: Config, e: Errand): int { if e.SelfRefreshing? then cfg.exitSelfRefresh else cfg.exitPowerDown }

  predicate Waits(e: Errand, st: State) { if e.SelfRefreshing? then st.SrefIdle? else e.PoweringDown? && st.PdIdle? }

  predicate AsksForEnd(e: Errand, i: Inputs) { !i.reset && if e.SelfRefreshing? then i.selfRefreshExit else i.powerDownExit }

  /** k cycles after the exit was requested; at the end a refresh is due at once. */
  predicate Leaving(cfg: Config, e: Errand, k: nat, s: Registers) {
    && (if k > ExitWait(cfg, e) then s.state.Idle? && s.refCnt == 0
        else s.cnt == ExitWait(cfg, e) - k && if e.SelfRefreshing? then s.state.SrefExitWait? else s.state.PdExitWait?)
    && !s.selfRefresh && (s.selfRefreshOut <==> e.SelfRefreshing? && k == 0) && !s.powerDown && s.bus == NOP
  }

  lemma ExitBegins(cfg: Config, e: Errand, s: Registers, i: Inputs)
    requires cfg.Valid() && Inv(cfg, s) && Waits(e, s.state) && AsksForEnd(e, i)
    ensures Leaving(cfg, e, 0, Step(cfg, s, i))
  {
    StepEdges(cfg, s, i);
  }

  lemma ExitMoves(cfg: Config, e: Errand, k: nat, s: Registers, i: Inputs)
    requires cfg.Valid() && (e.SelfRefreshing? || e.PoweringDown?) && k <= ExitWait(cfg, e) && Leaving(cfg, e, k, s) && !i.reset
    ensures Leaving(cfg, e, k + 1, Step(cfg, s, i))
  {
    StepEdges(cfg, s, i);
  }

  predicate LeavesOn(cfg: Core.Config, e: Errand, k: nat, c: Core.State) {
    && c.init.ready && Leaving(cfg.engine, e, k, c.engine)
    && Core.Pads(c).bus == NOP && (Core.Pads(c).cke <==> e.PoweringDown? || k > 0)
  }

  lemma RunLeaves(cfg: Core.Config, e: Errand, trace: seq<Core.State>, inputs: seq<Core.Inputs>, n: nat)
    requires cfg.Valid() && Core.IsTrace(cfg, trace, inputs) && n < |inputs| && (e.SelfRefreshing? || e.PoweringDown?)
    requires Waits(e, trace[n].engine.state) && AsksForEnd(e, Core.EngineInputs(trace[n], inputs[n]))
    ensures LeavesOn(cfg, e, 0, trace[n + 1])
  {
    Core.TraceFits(cfg, trace, inputs, n);
    assert trace[n + 1] == Core.Step(cfg, trace[n], inputs[n]);
    ExitBegins(cfg.engine, e, trace[n].engine, Core.EngineInputs(trace[n], inputs[n]));
    Core.ReadyStays(cfg, trace[n], inputs[n]);
  }

  lemma RunLeavesOn(cfg: Core.Config, e: Errand, trace: seq<Core.State>, inputs: seq<Core.Inputs>, j: nat, k: nat)
    requires cfg.Valid() && Core.IsTrace(cfg, trace, inputs) && j < |inputs| && !inputs[j].reset
    requires (e.SelfRefreshing? || e.PoweringDown?) && k <= ExitWait(cfg.engine, e) && LeavesOn(cfg, e, k, trace[j])
    ensures LeavesOn(cfg, e, k + 1, trace[j + 1])
  {
    Core.TraceFits(cfg, trace, inputs, j);
    assert trace[j + 1] == Core.Step(cfg, trace[j], inputs[j]);
    ExitMoves(cfg.engine, e, k, trace[j].engine, Core.EngineInputs(trace[j], inputs[j]));
    Core.ReadyStays(cfg, trace[j], inputs[j]);
  }

  /**
   * On every run, from the cycle in which the exit is requested: CKE rises at once (power-down) or one cycle later
   * (self-refresh), nothing but NOP follows for the exit wait, and the engine is back in IDLE after exactly one
   * cycle more, with a refresh due.
   */
  lemma {:induction false} VisitsEnd(cfg: Core.Config, e: Errand, trace: seq<Core.State>, inputs: seq<Core.Inputs>, n: nat, k: nat)
    requires cfg.Valid() && Core.IsTrace(cfg, trace, inputs) && n + k < |inputs| && (e.SelfRefreshing? || e.PoweringDown?)
    requires Waits(e, trace[n].engine.state) && AsksForEnd(e, Core.EngineInputs(trace[n], inputs[n]))
    requires k <= ExitWait(cfg.engine, e) + 1 && forall j :: n < j <= n + k ==> !inputs[j].reset
    ensures LeavesOn(cfg, e, k, trace[n + 1 + k])
  {
    if k == 0 {
      RunLeaves(cfg, e, trace, inputs, n);
    } else {
      VisitsEnd(cfg, e, trace, inputs, n, k - 1);
      RunLeavesOn(cfg, e, trace, inputs, n + k, k - 1);
    }
  }

  lemma DueShowsPrecharge(cfg: Config, s: Registers, i: Inputs, t: Registers, j: Inputs)
    requires Inv(cfg, s) && s.state.Idle? && Due(cfg, s) && !s.selfRefreshOut && i.ready && !i.reset && !j.reset && t == Step(cfg, s, i)
    ensures t.bus == DESELECT && Step(cfg, t, j).bus == PRECHARGE
  {
    IdleDecides(cfg, s, i);
    StepEdges(cfg, s, i);
    EntryPrecharges(cfg, t, j);
  }

  lemma EntryPrecharges(cfg: Config, t: Registers, j: Inputs)
    requires (t.state.SrefPre? || t.state.RPre?) && !j.reset
    ensures Step(cfg, t, j).bus == PRECHARGE
  {
    StepEdges(cfg, t, j);
  }

  /**
   * The exit times are met without a cycle to spare: whatever the host asks for, the first command after the visit is
   * on the pins two cycles after IDLE, when CKE has been high for TXSR + 2 or TXP + 3 cycles.
   */
  lemma FirstCommandAfterVisit(cfg: Core.Config, e: Errand, trace: seq<Core.State>, inputs: seq<Core.Inputs>, n: nat)
    requires cfg.Valid() && cfg.engine.refreshUrgent > 0 && Core.IsTrace(cfg, trace, inputs) && n + 1 < |inputs|
    requires (e.SelfRefreshing? || e.PoweringDown?) && LeavesOn(cfg, e, ExitWait(cfg.engine, e) + 1, trace[n])
    requires !inputs[n].reset && !inputs[n + 1].reset
    ensures Core.Pads(trace[n + 1]).bus == DESELECT && Core.Pads(trace[n + 2]).bus == PRECHARGE
  {
    Core.TraceFits(cfg, trace, inputs, n);
    Core.TraceFits(cfg, trace, inputs, n + 1);
    assert trace[n + 1] == Core.Step(cfg, trace[n], inputs[n]);
    assert trace[n + 2] == Core.Step(cfg, trace[n + 1], inputs[n + 1]);
    Core.ReadyStays(cfg, trace[n], inputs[n]);
    Core.ReadyStays(cfg, trace[n + 1], inputs[n + 1]);
    DueShowsPrecharge(cfg.engine, trace[n].engine, Core.EngineInputs(trace[n], inputs[n]), trace[n + 1].engine,
                      Core.EngineInputs(trace[n + 1], inputs[n + 1]));
  }
}
