/**
 * The power-up sequence as the device sees it behind the multiplexer, on every run from reset: when CKE rises,
 * and in each cycle which command is on the pins, with its bank and address.
 */
module InitPads {
  import opened DdrBus
  import opened InitSequence
  import Init = InitEngine
  import opened Core

  /** The levels of the start request. */
  function Levels(inputs: seq<Inputs>): (levels: seq<bool>)
    ensures |levels| == |inputs|
    ensures forall k :: 0 <= k < |inputs| ==> levels[k] == inputs[k].initDdr
  {
    seq(|inputs|, k requires 0 <= k < |inputs| => inputs[k].initDdr)
  }

  /** The host requests the start in the first cycle and does not reset. */
  predicate Starts(inputs: seq<Inputs>) {
    inputs != [] && inputs[0].initDdr && forall k :: 0 <= k < |inputs| ==> !inputs[k].reset
  }

  lemma OneMoreLevel(cfg: Init.Config, inputs: seq<Inputs>, n: nat)
    requires n < |inputs|
    ensures var r := InitSequence.Run(cfg, Levels(inputs[..n]));
      var s := InitSequence.Run(cfg, Levels(inputs[..n + 1]));
      && s.engine == Init.Step(cfg, r.engine, false, inputs[n].initDdr)
      && s.trace == Record(r.trace, r.engine, s.engine)
  {
    assert Levels(inputs[..n + 1])[..n] == Levels(inputs[..n]);
  }

  lemma {:induction false} InitFollows(cfg: Config, trace: seq<State>, inputs: seq<Inputs>, n: nat)
    requires IsTrace(cfg, trace, inputs) && Starts(inputs) && n < |trace|
    ensures trace[n].init == InitSequence.Run(cfg.init, Levels(inputs[..n])).engine
  {
    if n > 0 {
      InitFollows(cfg, trace, inputs, n - 1);
      OneMoreLevel(cfg.init, inputs, n - 1);
      assert trace[n - 1 + 1] == Core.Step(cfg, trace[n - 1], inputs[n - 1]);
    }
  }

  /** What is on the command pins so many cycles after the start request. */
  predicate ShowsDue(cfg: Init.Config, p: Pins, time: int) {
    && (forall k :: 0 <= k < 10 && Sequence(cfg)[k].at == time ==> Entry(time, p.bus, p.ba, p.a) == Sequence(cfg)[k])
    && ((forall k :: 0 <= k < 10 ==> Sequence(cfg)[k].at != time) ==> p.bus == DESELECT)
  }

  lemma TimesRise(cfg: Init.Config, j: nat, k: nat)
    requires j < k < 10
    ensures Sequence(cfg)[j].at < Sequence(cfg)[k].at
  {
    if k < 5 {
      EarlyTimesRise(cfg, j, k);
    } else {
      LateTimesRise(cfg, j, k);
    }
  }

  lemma EarlyTimesRise(cfg: Init.Config, j: nat, k: nat)
    requires j < k < 5
    ensures Sequence(cfg)[j].at < Sequence(cfg)[k].at
  {
  }

  lemma LateTimesRise(cfg: Init.Config, j: nat, k: nat)
    requires j < k < 10 && k >= 5
    ensures Sequence(cfg)[j].at < Sequence(cfg)[k].at
  {
  }

  lemma EdgeShowsDue(cfg: Init.Config, s: Init.Registers, t: Init.Registers, init: bool, time: int)
    requires OnTime(cfg, s, time) && PinsHeld(cfg, s) && !s.state.Idle? && t == Init.Step(cfg, s, false, init)
    requires OnTime(cfg, t, time + 1)
    ensures ShowsDue(cfg, Pins(t.cke, t.bus, t.ba, t.a), time + 1)
  {
    if t.bus != DESELECT {
      ShowsNext(cfg, s, t, time);
      OnlyOneDue(cfg, Count(s.state), time + 1);
    } else {
      NothingDue(cfg, s, t, init, time);
    }
  }

  lemma OnlyOneDue(cfg: Init.Config, j: nat, time: int)
    requires j < 10 && Sequence(cfg)[j].at == time
    ensures forall k :: 0 <= k < 10 && Sequence(cfg)[k].at == time ==> k == j
  {
    forall k | 0 <= k < 10 && Sequence(cfg)[k].at == time
      ensures k == j
    {
      if k < j {
        TimesRise(cfg, k, j);
      } else if j < k {
        TimesRise(cfg, j, k);
      }
    }
  }

  lemma NothingDue(cfg: Init.Config, s: Init.Registers, t: Init.Registers, init: bool, time: int)
    requires OnTime(cfg, s, time) && OnTime(cfg, t, time + 1) && !s.state.Idle?
    requires t.state == Init.NextState(cfg, s, init) && Init.NextBus(s.state) == DESELECT
    ensures forall k :: 0 <= k < 10 ==> Sequence(cfg)[k].at != time + 1
  {
    CountsOne(cfg, s, init);
    NeverIdleAgain(cfg, s, init);
    forall k | 0 <= k < 10
      ensures Sequence(cfg)[k].at != time + 1
    {
      ShownInTime(cfg, s, time, k);
      ShownInTime(cfg, t, time + 1, k);
    }
  }

  lemma RunShowsDue(cfg: Init.Config, inputs: seq<Inputs>, n: nat)
    requires 0 < n < |inputs| && Starts(inputs)
    ensures var t := InitSequence.Run(cfg, Levels(inputs[..n + 1])).engine;
      && ShowsDue(cfg, Pins(t.cke, t.bus, t.ba, t.a), n)
      && (t.cke <==> n >= CkeTime(cfg)) && (t.ready <==> n >= Latency(cfg))
  {
    var r := InitSequence.Run(cfg, Levels(inputs[..n]));
    var u := InitSequence.Run(cfg, Levels(inputs[..n + 1]));
    RunTraced(cfg, Levels(inputs[..n]));
    RunTraced(cfg, Levels(inputs[..n + 1]));
    RunTakesTime(cfg, Levels(inputs[..n]));
    RunTakesTime(cfg, Levels(inputs[..n + 1]));
    OneMoreLevel(cfg, inputs, n);
    EdgeShowsDue(cfg, r.engine, u.engine, inputs[n].initDdr, n - 1);
    InitialisesOnSchedule(cfg, Levels(inputs[..n + 1]));
  }

  /**
   * On every run from reset without a further reset, for all parameters and optional windows: n cycles after the
   * start request, until READY, the pads carry the command due in this cycle with its bank and address, or none,
   * and CKE is up exactly if the power-up wait is over. From the latency on they belong to the protocol engine.
   */
  lemma PadsOnSchedule(cfg: Config, trace: seq<State>, inputs: seq<Inputs>, n: nat)
    requires cfg.Valid() && IsTrace(cfg, trace, inputs) && Starts(inputs) && 0 < n < |inputs|
    ensures trace[n + 1].init.ready <==> n >= Latency(cfg.init)
    ensures n < Latency(cfg.init) ==>
      ShowsDue(cfg.init, Pads(trace[n + 1]), n) && (Pads(trace[n + 1]).cke <==> n >= CkeTime(cfg.init))
    ensures n >= Latency(cfg.init) ==>
      var s := trace[n + 1].engine;
      Pads(trace[n + 1]) == Pins(!(s.selfRefreshOut || s.powerDown), s.bus, s.ba, s.a)
  {
    InitFollows(cfg, trace, inputs, n + 1);
    RunShowsDue(cfg.init, inputs, n);
  }
}
