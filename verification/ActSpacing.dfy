/** The starts of any two ACTIVATE runs are at least seven cycles apart for every run in between. */
module ActSpacing {
  import opened DdrBus
  import opened TimingChecker
  import opened TimingSafety
  import opened TimingRuns
  import opened EngineInvariant
  import opened Phy
  import opened Core
  import Engine = ProtocolEngine

  const SPACING := 7

  /** The cycles since reset in which an ACTIVATE run starts on the pins. */
  function Starts(cfg: Config, start: Bench, inputs: seq<Inputs>): seq<int>
    requires start.monitor.Valid()
  {
    if inputs == [] then []
    else
      var b := BenchRun(cfg, start, inputs[..|inputs| - 1]);
      if inputs[|inputs| - 1].reset then []
      else
        Starts(cfg, start, inputs[..|inputs| - 1])
        + if ActPulse(b.monitor, Pads(b.core)) then [b.monitor.cycle] else []
  }

  /** A run that starts now is far enough from the last one. */
  predicate StartSpaced(b: Bench) {
    ActPulse(b.monitor, Pads(b.core)) && b.monitor.haveAct ==> b.monitor.cycle - b.monitor.stamp3 >= SPACING
  }

  lemma ReadyStepSpaced(cfg: Config, b: Bench, i: Inputs)
    requires cfg.Valid() && b.monitor.Valid() && StateFits(cfg, b) && b.core.init.ready && !i.reset
    ensures StartSpaced(BenchStep(cfg, b, i))
  {
    ReadyStays(cfg, b.core, i);
    PinsShowCommand(cfg.engine, b.core.engine, EngineInputs(b.core, i));
    PulseMeansOpening(cfg.engine, b.core.engine, Sampled(b), Pads(BenchStep(cfg, b, i).core));
  }

  lemma PulseMeansOpening(cfg: Engine.Config, s: Engine.Registers, m: Monitor, p: Pins)
    requires CountFits(cfg, s) && PrevFits(s, m) && GapFits(s, m) && Decode(p) == CommandOf(s.state)
    ensures ActPulse(m, p) && m.haveAct ==> m.cycle - m.stamp3 >= SPACING
  {
  }

  lemma InitStepSpaced(cfg: Config, b: Bench, i: Inputs)
    requires cfg.Valid() && b.monitor.Valid() && StateFits(cfg, b) && !b.core.init.ready && !i.reset
    ensures StartSpaced(BenchStep(cfg, b, i))
  {
    StepKeepsWaiting(cfg, b.core, i);
    InitPinsShowCommand(cfg.init, b.core.init, i.initDdr);
    var n := BenchStep(cfg, b, i);
    assert Decode(Pads(n.core)) != CmdAct;
  }

  predicate Spaced(times: seq<int>) {
    forall k :: 0 < k < |times| ==> times[k] >= times[k - 1] + SPACING
  }

  predicate StartsFit(b: Bench, times: seq<int>) {
    Spaced(times) && if times == [] then !b.monitor.haveAct else b.monitor.haveAct && b.monitor.stamp3 == times[|times| - 1]
  }

  lemma StepKeepsStarts(cfg: Config, b: Bench, i: Inputs, times: seq<int>)
    requires b.monitor.Valid() && StartsFit(b, times) && StartSpaced(b) && !i.reset
    ensures StartsFit(BenchStep(cfg, b, i), times + if ActPulse(b.monitor, Pads(b.core)) then [b.monitor.cycle] else [])
  {
  }

  lemma {:induction false} RunSpaced(cfg: Config, start: Bench, inputs: seq<Inputs>)
    requires cfg.Valid() && BenchReset(cfg, start)
    ensures StartsFit(BenchRun(cfg, start, inputs), Starts(cfg, start, inputs)) && StartSpaced(BenchRun(cfg, start, inputs))
  {
    if inputs == [] {
      StartFits(cfg, start);
    } else {
      var b := BenchRun(cfg, start, inputs[..|inputs| - 1]);
      var i := inputs[|inputs| - 1];
      RunSpaced(cfg, start, inputs[..|inputs| - 1]);
      TimingRuns.RunFits(cfg, start, inputs[..|inputs| - 1]);
      if i.reset {
        StartFits(cfg, BenchStep(cfg, b, i));
      } else {
        StepKeepsStarts(cfg, b, i, Starts(cfg, start, inputs[..|inputs| - 1]));
        if b.core.init.ready {
          ReadyStepSpaced(cfg, b, i);
        } else {
          InitStepSpaced(cfg, b, i);
        }
      }
    }
  }

  lemma {:induction false} SpacingAddsUp(times: seq<int>, j: nat, k: nat)
    requires Spaced(times) && j + k < |times|
    ensures times[j + k] >= times[j] + SPACING * k
  {
    if k > 0 {
      SpacingAddsUp(times, j, k - 1);
    }
  }

  /**
   * On every run from reset, for any inputs: the j-th and the (j+k)-th ACTIVATE run since reset start at
   * least 7k cycles apart, so two are never closer than tRRD nor five closer than tFAW.
   */
  lemma RunsOfActsSpaced(cfg: Config, start: Bench, inputs: seq<Inputs>, j: nat, k: nat)
    requires cfg.Valid() && BenchReset(cfg, start)
    requires j + k < |Starts(cfg, start, inputs)|
    ensures var times := Starts(cfg, start, inputs);
      && times[j + k] >= times[j] + SPACING * k
      && (k >= 1 ==> times[j + k] - times[j] >= TRRD_MIN)
      && (k >= 4 ==> times[j + k] - times[j] >= TFAW_MIN)
  {
    RunSpaced(cfg, start, inputs);
    SpacingAddsUp(Starts(cfg, start, inputs), j, k);
  }
}
