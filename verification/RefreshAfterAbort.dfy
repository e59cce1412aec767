/** What one low-power entry called off does to the next refresh. */
module RefreshAfterAbort {
  import opened DdrBus
  import opened RefreshMonitor
  import opened ProtocolEngine
  import opened EngineInvariant
  import opened RefreshBound
  import Core

  /** An edge that neither reloads the counter nor enters a low-power mode. */
  predicate LeavesAlone(cfg: Core.Config, b: Bench, i: Core.Inputs) {
    var wires := Core.EngineInputs(b.core, i);
    !i.reset && !Reloads(b.core.engine, wires) && !Enters(cfg.engine, b.core.engine, wires)
  }

  predicate CallsOff(b: Bench, i: Core.Inputs) { !i.reset && Aborts(b.core.engine, Core.EngineInputs(b.core, i)) && b.monitor.seen }

  /** Edge a calls an entry off, and from then on to state n every edge leaves the refresh counter alone. */
  predicate Undisturbed(cfg: Core.Config, trace: seq<Bench>, inputs: seq<Core.Inputs>, a: nat, n: nat) {
    && a < n <= |inputs| < |trace| && CallsOff(trace[a], inputs[a])
    && forall k: nat {:trigger LeavesAlone(cfg, trace[k], inputs[k])} :: a < k < n ==> LeavesAlone(cfg, trace[k], inputs[k])
  }

  /** The account an abort leaves behind: its own count, and nothing since. */
  predicate Reloaded(b: Bench, e: int) {
    b.core.init.ready && b.base == e && b.detours == 0 && !b.woken && b.monitor.seen && Awake(b.core.engine)
  }

  lemma AbortReloads(cfg: Core.Config, limits: Limits, b: Bench, i: Core.Inputs)
    requires cfg.Valid() && StateFits(cfg, limits, b) && CallsOff(b, i)
    ensures var n := BenchStep(cfg, limits, b, i); Reloaded(n, n.monitor.cycles)
  {
    Core.ReadyStays(cfg, b.core, i);
    StepAccounts(cfg, limits, b, i);
    StepEdges(cfg.engine, b.core.engine, Core.EngineInputs(b.core, i));
  }

  lemma AccountStays(cfg: Config, limits: Limits, b: Bench, i: Inputs, n: Bench, e: int)
    requires Accounts(cfg, limits, b, i, n) && Reloaded(b, e) && n.core.init.ready && Awake(n.core.engine)
    requires !Reloads(b.core.engine, i) && !Enters(cfg, b.core.engine, i)
    ensures Reloaded(n, e)
  {
  }

  lemma StaysReloaded(cfg: Core.Config, limits: Limits, b: Bench, i: Core.Inputs, e: int)
    requires cfg.Valid() && StateFits(cfg, limits, b) && LeavesAlone(cfg, b, i) && Reloaded(b, e)
    ensures Reloaded(BenchStep(cfg, limits, b, i), e)
  {
    var wires := Core.EngineInputs(b.core, i);
    Core.ReadyStays(cfg, b.core, i);
    StepAccounts(cfg, limits, b, i);
    StepStaysAwake(cfg.engine, b.core.engine, wires);
    AccountStays(cfg.engine, limits, b, wires, BenchStep(cfg, limits, b, i), e);
  }

  lemma StepStaysAwake(cfg: Config, s: Registers, i: Inputs)
    requires Inv(cfg, s) && !i.reset && Awake(s) && !Enters(cfg, s, i)
    ensures Awake(Step(cfg, s, i))
  {
    StepEdges(cfg, s, i);
    EdgeStaysAwake(cfg, s, i, Step(cfg, s, i));
  }

  lemma NextReloaded(cfg: Core.Config, limits: Limits, trace: seq<Bench>, inputs: seq<Core.Inputs>, k: nat, e: int)
    requires cfg.Valid() && IsRun(cfg, limits, trace, inputs) && k < |inputs|
    requires LeavesAlone(cfg, trace[k], inputs[k]) && Reloaded(trace[k], e)
    ensures Reloaded(trace[k + 1], e)
  {
    RunFits(cfg, limits, trace, inputs, k);
    assert trace[k + 1] == BenchStep(cfg, limits, trace[k], inputs[k]);
    StaysReloaded(cfg, limits, trace[k], inputs[k], e);
  }

  lemma FirstReloaded(cfg: Core.Config, limits: Limits, trace: seq<Bench>, inputs: seq<Core.Inputs>, a: nat)
    requires cfg.Valid() && IsRun(cfg, limits, trace, inputs) && a < |inputs| && CallsOff(trace[a], inputs[a])
    ensures Reloaded(trace[a + 1], trace[a + 1].monitor.cycles)
  {
    RunFits(cfg, limits, trace, inputs, a);
    assert trace[a + 1] == BenchStep(cfg, limits, trace[a], inputs[a]);
    AbortReloads(cfg, limits, trace[a], inputs[a]);
  }

  lemma {:induction false} UndisturbedStays(cfg: Core.Config, limits: Limits, trace: seq<Bench>, inputs: seq<Core.Inputs>,
                                            a: nat, n: nat)
    requires cfg.Valid() && IsRun(cfg, limits, trace, inputs) && Undisturbed(cfg, trace, inputs, a, n)
    ensures Reloaded(trace[n], trace[a + 1].monitor.cycles)
    decreases n
  {
    if n == a + 1 {
      FirstReloaded(cfg, limits, trace, inputs, a);
    } else {
      UndisturbedStays(cfg, limits, trace, inputs, a, n - 1);
      assert LeavesAlone(cfg, trace[n - 1], inputs[n - 1]);
      NextReloaded(cfg, limits, trace, inputs, n - 1, trace[a + 1].monitor.cycles);
    }
  }

  /**
   * One entry to self-refresh or power-down called off at count e decides about the next refresh, for all
   * traffic without a further entry: it is late if e is above the first bound, in time if below the second.
   */
  lemma AbortDecides(cfg: Core.Config, limits: Limits, trace: seq<Bench>, inputs: seq<Core.Inputs>, a: nat, n: nat)
    requires cfg.Valid() && cfg.engine.refreshUrgent > 0 && IsRun(cfg, limits, trace, inputs)
    requires n < |inputs| && Undisturbed(cfg, trace, inputs, a, n)
    requires trace[n].core.engine.state.RRef? && !inputs[n].reset
    ensures var e := trace[a + 1].monitor.cycles;
      var c := trace[n + 1].core;
      && IsRefresh(Core.Pads(c))
      && (e + cfg.engine.refreshInit - cfg.engine.refreshUrgent + REFRESH_PATH >= limits.max ==>
            TooLate(limits, trace[n].monitor, c.init.ready, Core.Pads(c)))
      && (e + Interval(cfg.engine) <= limits.max ==> !TooLate(limits, trace[n].monitor, c.init.ready, Core.Pads(c)))
  {
    UndisturbedStays(cfg, limits, trace, inputs, a, n);
    LateReloadLateRefresh(cfg, limits, trace, inputs, n);
    RefreshComesInTime(cfg, limits, trace, inputs, n);
  }
}
