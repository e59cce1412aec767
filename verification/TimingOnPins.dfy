/** Timing safety of the whole controller in terms of the commands on its pins alone. */
module TimingOnPins {
  import opened DdrBus
  import opened TimingChecker
  import opened TimingHistory
  import Runs = TimingRuns
  import Core

  /** The pins the monitor has sampled since the last reset of a run. */
  function Sampled(cfg: Core.Config, start: Runs.Bench, inputs: seq<Core.Inputs>): seq<Pins>
    requires start.monitor.Valid()
  {
    if inputs == [] || inputs[|inputs| - 1].reset then []
    else
      var before := inputs[..|inputs| - 1];
      Sampled(cfg, start, before) + [Core.Pads(Runs.BenchRun(cfg, start, before).core)]
  }

  lemma {:induction false} MonitorWatches(cfg: Core.Config, start: Runs.Bench, inputs: seq<Core.Inputs>)
    requires Runs.BenchReset(cfg, start)
    ensures Runs.BenchRun(cfg, start, inputs).monitor == Watched(Sampled(cfg, start, inputs))
  {
    if inputs != [] && !inputs[|inputs| - 1].reset {
      var before := inputs[..|inputs| - 1];
      MonitorWatches(cfg, start, before);
      WatchedOneMore(Sampled(cfg, start, before), Core.Pads(Runs.BenchRun(cfg, start, before).core));
    }
  }

  lemma WatchedOneMore(pins: seq<Pins>, p: Pins)
    ensures Watched(pins + [p]) == Observe(Watched(pins), p)
  {
    assert (pins + [p])[..|pins|] == pins;
  }

  /**
   * On every run from reset shorter than 2^32 cycles in which no command returns early: no ACTIVATE comes too soon
   * after a precharge, another ACTIVATE or the fourth last one, no precharge and no READ or WRITE too soon after its
   * row was opened, and no REFRESH too soon after the one before.
   */
  lemma CommandsKeepTheirDistance(cfg: Core.Config, start: Runs.Bench, inputs: seq<Core.Inputs>)
    requires cfg.Valid() && cfg.init.trfc >= TRFC_MIN && Runs.BenchReset(cfg, start)
    requires Runs.NoEarlyReturn(cfg, start, inputs) && |inputs| < CYCLE_WRAP
    ensures var pins := Sampled(cfg, start, inputs);
      var p := Core.Pads(Runs.BenchRun(cfg, start, inputs).core);
      && !EarlyActivate(pins, p) && !CloseActivate(pins, p) && !FifthActivate(pins, p)
      && !EarlyPrecharge(pins, p) && !EarlyColumn(pins, p) && !CloseRefresh(pins, p)
  {
    Runs.SafeBeforeWrap(cfg, start, inputs);
    MonitorWatches(cfg, start, inputs);
    VerdictIsHistory(Sampled(cfg, start, inputs), Core.Pads(Runs.BenchRun(cfg, start, inputs).core));
  }
}
