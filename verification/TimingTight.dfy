/** tRP is met without a cycle to spare: a low-power entry called off leads straight to the next ACTIVATE. */
module TimingTight {
  import opened DdrBus
  import opened ProtocolEngine
  import opened EngineInvariant
  import opened TimingChecker
  import opened TimingSafety
  import opened Phy

  /** The bank on the pins was precharged so many cycles ago. */
  predicate PrechargedFor(s: Registers, m: Monitor, age: int)
    requires m.Valid()
  {
    m.banks[s.ba].sincePre == age
  }

  lemma PrechargeAges(cfg: Config, s: Registers, i: Inputs, m: Monitor, age: int)
    requires Inv(cfg, s) && !i.reset && m.Valid() && PrechargedFor(s, m, age) && 0 <= age < BYTE_MAX
    requires s.state.Idle? || s.state.GetCmd?
    ensures var t := Step(cfg, s, i); t.ba == s.ba && PrechargedFor(t, Observe(m, EnginePins(t)), age + 1)
  {
    PinsShowCommand(cfg, s, i);
    StepEdges(cfg, s, i);
  }

  lemma AbortPrecharges(cfg: Config, s: Registers, i: Inputs, m: Monitor)
    requires Inv(cfg, s) && !i.reset && m.Valid() && (s.state.SrefPre? || s.state.PdPre?) && Aborts(s, i)
    ensures var t := Step(cfg, s, i); t.state.Idle? && PrechargedFor(t, Observe(m, EnginePins(t)), 0)
  {
    PinsShowCommand(cfg, s, i);
    StepEdges(cfg, s, i);
  }

  lemma CommandWaits(cfg: Config, s: Registers, i: Inputs)
    requires !i.reset
    ensures s.state.Idle? && Arbitrate(cfg, s, i) == ToCommand ==>
              Step(cfg, s, i).state.GetCmd? && Step(cfg, s, i).cnt == GETCMD_WAIT
    ensures s.state.GetCmd? && s.cnt > 0 ==> Step(cfg, s, i).state.GetCmd? && Step(cfg, s, i).cnt == s.cnt - 1
    ensures Latches(s) ==> Step(cfg, s, i).state.Activate? && Step(cfg, s, i).cnt == 1 && Step(cfg, s, i).bank == BankOf(i.addr)
  {
    StepEdges(cfg, s, i);
  }

  /** A run of the engine and of the monitor that has sampled its pins. */
  predicate Follows(cfg: Config, states: seq<Registers>, monitors: seq<Monitor>, inputs: seq<Inputs>) {
    && |states| == |monitors| == |inputs| + 1 && (forall n :: 0 <= n < |monitors| ==> monitors[n].Valid())
    && forall n: nat {:trigger Step(cfg, states[n], inputs[n])} :: n < |inputs| ==>
      && !inputs[n].reset
      && states[n + 1] == Step(cfg, states[n], inputs[n])
      && monitors[n + 1] == Observe(monitors[n], EnginePins(states[n + 1]))
  }

  lemma NextInv(cfg: Config, states: seq<Registers>, monitors: seq<Monitor>, inputs: seq<Inputs>, n: nat)
    requires cfg.Valid() && Follows(cfg, states, monitors, inputs) && n < |inputs| && Inv(cfg, states[n])
    ensures Inv(cfg, states[n + 1])
  {
    assert states[n + 1] == Step(cfg, states[n], inputs[n]);
    StepKeepsInv(cfg, states[n], inputs[n]);
  }

  lemma AbortStep(cfg: Config, states: seq<Registers>, monitors: seq<Monitor>, inputs: seq<Inputs>)
    requires cfg.Valid() && Follows(cfg, states, monitors, inputs) && 1 < |inputs| && Inv(cfg, states[0])
    requires (states[0].state.SrefPre? || states[0].state.PdPre?) && Aborts(states[0], inputs[0])
    requires Arbitrate(cfg, states[1], inputs[1]) == ToCommand
    ensures Inv(cfg, states[2]) && PrechargedFor(states[2], monitors[2], 1)
    ensures states[2].state.GetCmd? && states[2].cnt == GETCMD_WAIT
  {
    NextInv(cfg, states, monitors, inputs, 0);
    NextInv(cfg, states, monitors, inputs, 1);
    assert states[1] == Step(cfg, states[0], inputs[0]);
    assert states[2] == Step(cfg, states[1], inputs[1]);
    AbortPrecharges(cfg, states[0], inputs[0], monitors[0]);
    PrechargeAges(cfg, states[1], inputs[1], monitors[1], 0);
    CommandWaits(cfg, states[1], inputs[1]);
  }

  lemma GetStep(cfg: Config, states: seq<Registers>, monitors: seq<Monitor>, inputs: seq<Inputs>, n: nat, age: int)
    requires cfg.Valid() && Follows(cfg, states, monitors, inputs) && n < |inputs| && Inv(cfg, states[n]) && 0 <= age < BYTE_MAX
    requires PrechargedFor(states[n], monitors[n], age) && states[n].state.GetCmd?
    ensures Inv(cfg, states[n + 1]) && PrechargedFor(states[n + 1], monitors[n + 1], age + 1)
    ensures states[n + 1].ba == states[n].ba
    ensures if states[n].cnt > 0 then states[n + 1].state.GetCmd? && states[n + 1].cnt == states[n].cnt - 1
            else Latches(states[n]) ==> states[n + 1].state.Activate? && states[n + 1].cnt == 1 && states[n + 1].bank == BankOf(inputs[n].addr)
  {
    NextInv(cfg, states, monitors, inputs, n);
    assert states[n + 1] == Step(cfg, states[n], inputs[n]);
    PrechargeAges(cfg, states[n], inputs[n], monitors[n], age);
    CommandWaits(cfg, states[n], inputs[n]);
  }

  /** An entry called off in its first state, followed by a command for the same bank: the timer is exactly at its minimum. */
  lemma AbortedEntryIsTight(cfg: Config, states: seq<Registers>, monitors: seq<Monitor>, inputs: seq<Inputs>)
    requires cfg.Valid() && Follows(cfg, states, monitors, inputs) && |inputs| == 6 && Inv(cfg, states[0])
    requires (states[0].state.SrefPre? || states[0].state.PdPre?) && Aborts(states[0], inputs[0])
    requires Arbitrate(cfg, states[1], inputs[1]) == ToCommand
    requires Latches(states[4]) && BankOf(inputs[4].addr) == states[4].ba
    ensures Decode(EnginePins(states[6])) == CmdAct
    ensures monitors[5].banks[EnginePins(states[6]).ba].sincePre == TRP_MIN
  {
    AbortStep(cfg, states, monitors, inputs);
    GetStep(cfg, states, monitors, inputs, 2, 1);
    GetStep(cfg, states, monitors, inputs, 3, 2);
    GetStep(cfg, states, monitors, inputs, 4, 3);
    assert states[6] == Step(cfg, states[5], inputs[5]);
    PinsShowCommand(cfg, states[5], inputs[5]);
    StepEdges(cfg, states[5], inputs[5]);
  }
}
