/**
 * Automatic self-refresh competes with periodic refresh for the same idle time. Which of the two
 * parameters sets wins is decided here for every run.
 */
module AutoSelfRefresh {
  import opened ProtocolEngine
  import opened EngineInvariant
  import Init = InitEngine
  import Sequence = InitSequence
  import Core

  /** The idle window fits between a refresh and the moment the next one becomes due. */
  predicate WindowFits(cfg: Config) {
    cfg.refreshUrgent == 0 || cfg.autoIdle + cfg.refreshUrgent <= cfg.refreshInit
  }

  /** Quiet cycles are paid for out of the refresh counter. */
  predicate Budget(cfg: Config, s: Registers) {
    0 <= s.idleQuiet && (s.idleQuiet > 0 ==> s.idleQuiet + s.refCnt <= cfg.refreshInit)
  }

  lemma StepKeepsBudget(cfg: Config, s: Registers, i: Inputs)
    requires cfg.Valid() && cfg.refreshUrgent > 0 && Inv(cfg, s) && Budget(cfg, s) && !i.reset
    ensures Budget(cfg, Step(cfg, s, i))
    ensures Step(cfg, s, i).autoReq && !s.autoReq ==> WindowFits(cfg)
  {
    StepEdges(cfg, s, i);
  }

  /** Before READY, and whatever the registers held at power-up, there is no request and no count. */
  predicate CoreBudget(cfg: Core.Config, c: Core.State) {
    c.init.ready ==> Budget(cfg.engine, c.engine) && (c.engine.autoReq ==> WindowFits(cfg.engine))
  }

  lemma StepKeepsCoreBudget(cfg: Core.Config, c: Core.State, i: Core.Inputs)
    requires cfg.Valid() && cfg.engine.refreshUrgent > 0 && Core.Fits(cfg, c) && CoreBudget(cfg, c)
    ensures CoreBudget(cfg, Core.Step(cfg, c, i))
  {
    if !i.reset {
      StepEdges(cfg.engine, c.engine, Core.EngineInputs(c, i));
      if c.init.ready {
        StepKeepsBudget(cfg.engine, c.engine, Core.EngineInputs(c, i));
      }
    }
  }

  /** If the window does not fit, no run from reset ever requests automatic self-refresh after READY. */
  lemma {:induction false} NeverRequestedUnlessWindowFits(cfg: Core.Config, start: Core.State, inputs: seq<Core.Inputs>)
    requires cfg.Valid() && Core.IsReset(cfg, start) && !WindowFits(cfg.engine)
    ensures var c := Core.Run(cfg, start, inputs);
      CoreBudget(cfg, c) && (c.init.ready ==> !c.engine.autoReq)
  {
    if inputs != [] {
      var before := inputs[..|inputs| - 1];
      NeverRequestedUnlessWindowFits(cfg, start, before);
      Core.RunFits(cfg, start, before);
      StepKeepsCoreBudget(cfg, Core.Run(cfg, start, before), inputs[|inputs| - 1]);
    }
  }

  /** A cycle in which nobody asks for anything. */
  predicate Quiet(i: Inputs) {
    && !i.reset && i.ready && !i.cmdAvailable
    && !i.selfRefreshReq && !i.powerDownReq && !i.dllReq
  }

  /** A freshly ready engine that was left alone for k cycles has counted them all. */
  predicate Counted(cfg: Config, s: Registers, k: int) {
    && s.state.Idle? && !s.selfRefresh && !s.powerDown && s.idleQuiet == k && !s.autoReq
    && s.refCnt == if k <= cfg.refreshInit then cfg.refreshInit - k else 0
  }

  lemma QuietCounts(cfg: Config, s: Registers, i: Inputs, k: nat)
    requires cfg.Valid() && WindowFits(cfg) && Quiet(i) && Counted(cfg, s, k) && k < cfg.autoIdle
    ensures Counted(cfg, Step(cfg, s, i), k + 1)
  {
    StepEdges(cfg, s, i);
  }

  lemma RequestRises(cfg: Config, s: Registers, i: Inputs)
    requires cfg.Valid() && WindowFits(cfg) && Quiet(i) && Counted(cfg, s, cfg.autoIdle)
    ensures var t := Step(cfg, s, i); t.autoReq && t.state.Idle? && !t.selfRefresh && !t.powerDown
  {
    StepEdges(cfg, s, i);
  }

  lemma RequestIsServed(cfg: Config, s: Registers, i: Inputs)
    requires !i.reset && i.ready && s.state.Idle? && !s.selfRefresh && !s.powerDown && s.autoReq
    ensures Step(cfg, s, i).state.SrefPre?
  {
    StepEdges(cfg, s, i);
  }

  // ---------------------------------------------------------------- from reset on

  /** The host starts the initialisation and asks for nothing. */
  predicate Alone(i: Core.Inputs) { !i.reset && i.initDdr && Quiet(Wires(i)) }

  /** What the engine sees of it once READY is up. */
  function Wires(i: Core.Inputs): Inputs { i.wires.(reset := false, ready := true) }

  /** The states of a run from reset with such a host. */
  predicate IsAlone(cfg: Core.Config, trace: seq<Core.State>, i: Core.Inputs) {
    && Alone(i) && |trace| > 0 && Core.IsReset(cfg, trace[0])
    && forall n: nat {:trigger Core.Step(cfg, trace[n], i)} :: n + 1 < |trace| ==> trace[n + 1] == Core.Step(cfg, trace[n], i)
  }

  lemma NextCoreFits(cfg: Core.Config, trace: seq<Core.State>, i: Core.Inputs, n: nat)
    requires cfg.Valid() && IsAlone(cfg, trace, i) && n + 1 < |trace| && Core.Fits(cfg, trace[n])
    ensures Core.Fits(cfg, trace[n + 1])
  {
    assert trace[n + 1] == Core.Step(cfg, trace[n], i);
    Core.StepFits(cfg, trace[n], i);
  }

  lemma {:induction false} AloneKeepsFits(cfg: Core.Config, trace: seq<Core.State>, i: Core.Inputs, n: nat)
    requires cfg.Valid() && IsAlone(cfg, trace, i) && n < |trace| && Core.Fits(cfg, trace[0])
    ensures Core.Fits(cfg, trace[n])
  {
    if n > 0 {
      AloneKeepsFits(cfg, trace, i, n - 1);
      NextCoreFits(cfg, trace, i, n - 1);
    }
  }

  lemma AloneFits(cfg: Core.Config, trace: seq<Core.State>, i: Core.Inputs, n: nat)
    requires cfg.Valid() && IsAlone(cfg, trace, i) && n < |trace|
    ensures Core.Fits(cfg, trace[n])
  {
    Core.ResetFits(cfg, trace[0]);
    AloneKeepsFits(cfg, trace, i, n);
  }

  function Started(n: nat): (inputs: seq<bool>)
    ensures |inputs| == n && (n > 0 ==> inputs[0])
  {
    seq(n, _ => true)
  }

  lemma StartedOneMore(cfg: Core.Config, n: nat)
    ensures Sequence.Run(cfg.init, Started(n + 1)).engine ==
            Init.Step(cfg.init, Sequence.Run(cfg.init, Started(n)).engine, false, true)
  {
    assert Started(n + 1)[..n] == Started(n);
  }

  lemma {:induction false} InitFollows(cfg: Core.Config, trace: seq<Core.State>, i: Core.Inputs, n: nat)
    requires IsAlone(cfg, trace, i) && n < |trace|
    ensures trace[n].init == Sequence.Run(cfg.init, Started(n)).engine
  {
    if n > 0 {
      InitFollows(cfg, trace, i, n - 1);
      StartedOneMore(cfg, n - 1);
      assert trace[n - 1 + 1] == Core.Step(cfg, trace[n - 1], i);
    }
  }

  /** The first cycle in which READY is up. */
  function ReadyTime(cfg: Core.Config): nat { Sequence.Latency(cfg.init) + 1 }

  /** The controller is ready and its engine has counted k quiet cycles. */
  predicate Counting(cfg: Core.Config, c: Core.State, k: int) { c.init.ready && Counted(cfg.engine, c.engine, k) }

  lemma LastWaitIsFresh(cfg: Core.Config, c: Core.State, i: Core.Inputs)
    requires cfg.Valid() && Core.Waiting(cfg, c.engine) && !c.init.ready && !i.reset
    ensures Counted(cfg.engine, Core.Step(cfg, c, i).engine, 0)
  {
    Core.StepKeepsWaiting(cfg, c, i);
    StepEdges(cfg.engine, c.engine, Core.EngineInputs(c, i));
  }

  lemma ReadyRises(cfg: Core.Config, trace: seq<Core.State>, i: Core.Inputs)
    requires cfg.Valid() && IsAlone(cfg, trace, i) && ReadyTime(cfg) < |trace|
    ensures trace[ReadyTime(cfg)].init.ready && !trace[ReadyTime(cfg) - 1].init.ready
  {
    var n := Sequence.Latency(cfg.init);
    InitFollows(cfg, trace, i, n);
    InitFollows(cfg, trace, i, n + 1);
    Sequence.InitialisesOnSchedule(cfg.init, Started(n));
    Sequence.InitialisesOnSchedule(cfg.init, Started(n + 1));
  }

  /** READY rises after exactly the latency, and finds an engine that has counted nothing yet. */
  lemma ReadyFindsFresh(cfg: Core.Config, trace: seq<Core.State>, i: Core.Inputs, n: nat)
    requires cfg.Valid() && IsAlone(cfg, trace, i) && n + 1 < |trace| && n + 1 == ReadyTime(cfg)
    ensures Counting(cfg, trace[n + 1], 0)
  {
    ReadyRises(cfg, trace, i);
    AloneFits(cfg, trace, i, n);
    assert trace[n + 1] == Core.Step(cfg, trace[n], i);
    LastWaitIsFresh(cfg, trace[n], i);
  }

  lemma ReadyStep(cfg: Core.Config, c: Core.State, i: Core.Inputs)
    requires Core.Fits(cfg, c) && c.init.ready && Alone(i)
    ensures Core.Step(cfg, c, i).init.ready && Core.Step(cfg, c, i).engine == Step(cfg.engine, c.engine, Wires(i))
  {
    Core.ReadyStays(cfg, c, i);
  }

  lemma NextFollows(cfg: Core.Config, trace: seq<Core.State>, i: Core.Inputs, n: nat)
    requires cfg.Valid() && IsAlone(cfg, trace, i) && n + 1 < |trace| && trace[n].init.ready
    ensures trace[n + 1].init.ready && trace[n + 1].engine == Step(cfg.engine, trace[n].engine, Wires(i))
  {
    AloneFits(cfg, trace, i, n);
    assert trace[n + 1] == Core.Step(cfg, trace[n], i);
    ReadyStep(cfg, trace[n], i);
  }

  lemma NextCounts(cfg: Core.Config, trace: seq<Core.State>, i: Core.Inputs, n: nat, k: nat)
    requires cfg.Valid() && IsAlone(cfg, trace, i) && n + 1 < |trace| && WindowFits(cfg.engine) && k < cfg.engine.autoIdle
    requires Counting(cfg, trace[n], k)
    ensures Counting(cfg, trace[n + 1], k + 1)
  {
    NextFollows(cfg, trace, i, n);
    QuietCounts(cfg.engine, trace[n].engine, Wires(i), k);
  }

  lemma {:induction false} AloneCounts(cfg: Core.Config, trace: seq<Core.State>, i: Core.Inputs, ready: nat, k: nat)
    requires cfg.Valid() && IsAlone(cfg, trace, i) && ready + k < |trace| && WindowFits(cfg.engine) && k <= cfg.engine.autoIdle
    requires Counting(cfg, trace[ready], 0)
    ensures Counting(cfg, trace[ready + k], k)
  {
    if k > 0 {
      AloneCounts(cfg, trace, i, ready, k - 1);
      NextCounts(cfg, trace, i, ready + k - 1, k - 1);
    }
  }

  lemma CountedRequests(cfg: Core.Config, trace: seq<Core.State>, i: Core.Inputs, n: nat)
    requires cfg.Valid() && IsAlone(cfg, trace, i) && n + 2 < |trace| && WindowFits(cfg.engine)
    requires Counting(cfg, trace[n], cfg.engine.autoIdle)
    ensures trace[n + 1].engine.autoReq && trace[n + 2].engine.state.SrefPre?
  {
    NextFollows(cfg, trace, i, n);
    RequestRises(cfg.engine, trace[n].engine, Wires(i));
    NextFollows(cfg, trace, i, n + 1);
    RequestIsServed(cfg.engine, trace[n + 1].engine, Wires(i));
  }

  /**
   * If the window fits, on every run from reset on which the host leaves the controller alone, the engine
   * goes into self-refresh by itself: the request rises in exactly this cycle, the entry begins in the next.
   */
  lemma RequestedIfWindowFits(cfg: Core.Config, trace: seq<Core.State>, i: Core.Inputs, n: nat)
    requires cfg.Valid() && IsAlone(cfg, trace, i) && WindowFits(cfg.engine)
    requires n == ReadyTime(cfg) + cfg.engine.autoIdle && n + 2 < |trace|
    ensures trace[n + 1].engine.autoReq && trace[n + 2].engine.state.SrefPre?
  {
    ReadyFindsFresh(cfg, trace, i, ReadyTime(cfg) - 1);
    AloneCounts(cfg, trace, i, ReadyTime(cfg), cfg.engine.autoIdle);
    CountedRequests(cfg, trace, i, n);
  }

  /** With the default parameters the documented automatic entry never happens. */
  lemma DefaultWindowDoesNotFit()
    ensures !WindowFits(DefaultConfig())
  {
  }
}
