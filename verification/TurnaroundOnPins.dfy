/** Turnaround safety of the whole controller in terms of the commands on its pins alone. */
module TurnaroundOnPins {
  import opened DdrBus
  import opened TurnaroundChecker
  import opened TurnaroundHistory
  import Runs = TurnaroundSafety
  import Core

  /** The pins the monitor has sampled since the last reset of a run. */
  function Sampled(cfg: Core.Config, start: Runs.Bench, inputs: seq<Core.Inputs>): (pins: seq<Pins>)
    requires start.monitor.Valid()
    ensures |pins| <= |inputs|
  {
    if inputs == [] || inputs[|inputs| - 1].reset then []
    else
      var before := inputs[..|inputs| - 1];
      Sampled(cfg, start, before) + [Core.Pads(Runs.BenchRun(cfg, start, before).core)]
  }

  lemma {:induction false} MonitorWatches(cfg: Core.Config, start: Runs.Bench, inputs: seq<Core.Inputs>)
    requires Runs.BenchReset(cfg, start)
    ensures Runs.BenchRun(cfg, start, inputs).monitor == Watched(Sampled(cfg, start, inputs))
  {
    if inputs != [] && !inputs[|inputs| - 1].reset {
      var before := inputs[..|inputs| - 1];
      MonitorWatches(cfg, start, before);
      WatchedOneMore(Sampled(cfg, start, before), Core.Pads(Runs.BenchRun(cfg, start, before).core));
    }
  }

  lemma WatchedOneMore(pins: seq<Pins>, p: Pins)
    ensures Watched(pins + [p]) == Observe(Watched(pins), p)
  {
    assert (pins + [p])[..|pins|] == pins;
  }

  /**
   * On every run from reset shorter than 2^31 cycles, for any command stream: no WRITE less than 8 cycles after a
   * READ, no READ less than 4 after a WRITE, no precharge less than 8 after a WRITE or 4 after a READ to its bank.
   */
  lemma CommandsKeepTheirDistance(cfg: Core.Config, start: Runs.Bench, inputs: seq<Core.Inputs>)
    requires cfg.Valid() && Runs.BenchReset(cfg, start) && |inputs| < INTEGER_HALF
    ensures var pins := Sampled(cfg, start, inputs);
      var p := Core.Pads(Runs.BenchRun(cfg, start, inputs).core);
      && (Decode(p) == CmdWrite ==> !Recently(pins, CmdRead, 8))
      && (Decode(p) == CmdRead ==> !Recently(pins, CmdWrite, 4))
      && (Decode(p) == CmdPre ==> !RecentlyTo(pins, CmdWrite, p.ba, 8) && !RecentlyTo(pins, CmdRead, p.ba, 4))
  {
    Runs.SafeBeforeWrap(cfg, start, inputs);
    MonitorWatches(cfg, start, inputs);
    VerdictIsHistory(Sampled(cfg, start, inputs), Core.Pads(Runs.BenchRun(cfg, start, inputs).core));
  }
}
