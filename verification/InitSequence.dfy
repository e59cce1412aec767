/**
 * The initialisation sequence, command by command and cycle by cycle, for every choice of parameters:
 * PREALL, EMRS2, EMRS3, EMRS1, MRS, REF, REF, MRS, EMRS1, PREALL (JESD79-2, power-up and initialization).
 */
module InitSequence {
  import opened DdrBus
  import opened InitEngine

  /** A command on the pins and the number of cycles since the start was requested. */
  datatype Entry = Entry(at: int, bus: Bus, ba: Bank, a: int)

  // ---------------------------------------------------------------- the schedule

  /**
   * Cycles from one command to the next. The wait after a command entered with count p lasts p cycles; with
   * p = 0 the command itself finds the counter at zero and loads its own count q.
   */
  function Gap(p: nat, q: nat): nat { if p > 0 then p + 1 else q + 2 }

  function ModeGap(cfg: Config): nat { Gap(cfg.tmrd, cfg.tmrd) }

  function RefreshGap(cfg: Config): nat { Gap(cfg.trfc, cfg.trfc) }

  function OcdTime(cfg: Config): nat { if cfg.ocdWait != 0 then cfg.ocdWait + 1 else 0 }

  /** From the last PREALL to the READY state. A non-zero final wait swallows the ZQ window. */
  function FinalTime(cfg: Config): nat {
    if cfg.zqWait != 0 then Gap(cfg.final, cfg.zqWait) + cfg.final + 1 else Gap(cfg.final, cfg.final)
  }

  const PRECHARGE_GAP := 2

  /** When the engine enters the state of a command. */
  function At(cfg: Config, st: State): nat {
    var first := cfg.powerUp + cfg.txsr + 2;
    var modes := first + PRECHARGE_GAP;
    var refreshes := modes + 4 * ModeGap(cfg);
    var relock := refreshes + 2 * RefreshGap(cfg);
    var last := relock + Gap(cfg.tmrdDll, cfg.tmrd) + ModeGap(cfg) + OcdTime(cfg);
    match st
    case Idle => 0
    case PowerUp => 0
    case Cke => cfg.powerUp + 1
    case Pre => first
    case Trp => first + 1
    case Emrs2 => modes
    case Emrs2W => modes + 1
    case Emrs3 => modes + ModeGap(cfg)
    case Emrs3W => modes + ModeGap(cfg) + 1
    case Emrs1 => modes + 2 * ModeGap(cfg)
    case Emrs1W => modes + 2 * ModeGap(cfg) + 1
    case Mrs => modes + 3 * ModeGap(cfg)
    case MrsW => modes + 3 * ModeGap(cfg) + 1
    case Ref1 => refreshes
    case Ref1W => refreshes + 1
    case Ref2 => refreshes + RefreshGap(cfg)
    case Ref2W => refreshes + RefreshGap(cfg) + 1
    case Mrs2 => relock
    case Mrs2W => relock + 1
    case Emrs1b => relock + Gap(cfg.tmrdDll, cfg.tmrd)
    case Emrs1bW => relock + Gap(cfg.tmrdDll, cfg.tmrd) + 1
    case OcdWait => relock + Gap(cfg.tmrdDll, cfg.tmrd) + ModeGap(cfg)
    case FinalPre => last
    case ZqWait => last + 1
    case FinalW => if cfg.zqWait != 0 then last + Gap(cfg.final, cfg.zqWait) else last + 1
    case Ready => last + FinalTime(cfg)
  }

  /** READY rises one cycle after the READY state is entered. */
  function Latency(cfg: Config): nat { At(cfg, Ready) + 1 }

  /** CKE rises one cycle after the power-up wait is over and its state has been left. */
  function CkeTime(cfg: Config): nat { cfg.powerUp + 2 }

  /** Every command, one cycle long, with what it carries; it is on the pins the cycle after its state. */
  function Sequence(cfg: Config): (log: seq<Entry>)
    ensures |log| == 10
  {
    [Entry(At(cfg, Pre) + 1, PRECHARGE, 0, PRECHARGE_ALL),
     Entry(At(cfg, Emrs2) + 1, MODE_SET, 2, 0),
     Entry(At(cfg, Emrs3) + 1, MODE_SET, 3, 0),
     Entry(At(cfg, Emrs1) + 1, MODE_SET, 1, cfg.emrs1Init),
     Entry(At(cfg, Mrs) + 1, MODE_SET, 0, cfg.mrsReset),
     Entry(At(cfg, Ref1) + 1, REFRESH, 0, cfg.mrsReset),
     Entry(At(cfg, Ref2) + 1, REFRESH, 0, cfg.mrsReset),
     Entry(At(cfg, Mrs2) + 1, MODE_SET, 0, cfg.mrsFinal),
     Entry(At(cfg, Emrs1b) + 1, MODE_SET, 1, cfg.emrs1Final),
     Entry(At(cfg, FinalPre) + 1, PRECHARGE, 1, PRECHARGE_ALL)]
  }

  // ---------------------------------------------------------------- the recording

  datatype Trace = Trace(log: seq<Entry>, time: int)

  function Shown(at: int, t: Registers): seq<Entry> { if t.bus == DESELECT then [] else [Entry(at, t.bus, t.ba, t.a)] }

  /** Time runs from the edge on which the start request is seen. */
  function Record(tr: Trace, s: Registers, t: Registers): Trace {
    if s.state.Idle? then tr else Trace(tr.log + Shown(tr.time + 1, t), tr.time + 1)
  }

  /** How many commands have been on the pins. */
  function Count(st: State): nat {
    match st
    case Idle => 0
    case PowerUp => 0
    case Cke => 0
    case Pre => 0
    case Trp => 1
    case Emrs2 => 1
    case Emrs2W => 2
    case Emrs3 => 2
    case Emrs3W => 3
    case Emrs1 => 3
    case Emrs1W => 4
    case Mrs => 4
    case MrsW => 5
    case Ref1 => 5
    case Ref1W => 6
    case Ref2 => 6
    case Ref2W => 7
    case Mrs2 => 7
    case Mrs2W => 8
    case Emrs1b => 8
    case Emrs1bW => 9
    case OcdWait => 9
    case FinalPre => 9
    case ZqWait => 10
    case FinalW => 10
    case Ready => 10
  }

  /** The count with which a state is entered. */
  function Entered(cfg: Config, st: State): nat {
    match st
    case Idle => 0
    case PowerUp => cfg.powerUp
    case Cke => cfg.txsr
    case Pre => 1
    case Trp => 0
    case Emrs2 => cfg.tmrd
    case Emrs3 => cfg.tmrd
    case Emrs1 => cfg.tmrd
    case Mrs => cfg.tmrd
    case Ref1 => cfg.trfc
    case Ref2 => cfg.trfc
    case Mrs2 => cfg.tmrdDll
    case Emrs1b => cfg.tmrd
    case Emrs2W => ModeGap(cfg) - 2
    case Emrs3W => ModeGap(cfg) - 2
    case Emrs1W => ModeGap(cfg) - 2
    case MrsW => ModeGap(cfg) - 2
    case Ref1W => RefreshGap(cfg) - 2
    case Ref2W => RefreshGap(cfg) - 2
    case Mrs2W => Gap(cfg.tmrdDll, cfg.tmrd) - 2
    case Emrs1bW => ModeGap(cfg) - 2
    case OcdWait => cfg.ocdWait
    case FinalPre => cfg.final
    case ZqWait => Gap(cfg.final, cfg.zqWait) - 2
    case FinalW => if cfg.zqWait != 0 then cfg.final else Gap(cfg.final, cfg.final) - 2
    case Ready => 0
  }

  /** The address and bank pins, which keep their last command. */
  predicate PinsHeld(cfg: Config, s: Registers) {
    match s.state
    case Idle => s.ba == 0
    case PowerUp => s.ba == 0
    case Cke => s.ba == 0
    case Pre => s.ba == 0
    case MrsW => s.ba == 0 && s.a == cfg.mrsReset
    case Ref1 => s.ba == 0 && s.a == cfg.mrsReset
    case Ref1W => s.ba == 0 && s.a == cfg.mrsReset
    case Ref2 => s.ba == 0 && s.a == cfg.mrsReset
    case Emrs1bW => s.ba == 1
    case OcdWait => s.ba == 1
    case FinalPre => s.ba == 1
    case _ => true
  }

  predicate OptionalStates(cfg: Config, st: State) {
    (st.OcdWait? ==> cfg.ocdWait != 0) && (st.ZqWait? ==> cfg.zqWait != 0)
  }

  /** The clock of the sequence: a state is left when its count has run out. */
  predicate OnTime(cfg: Config, s: Registers, time: int) {
    && OptionalStates(cfg, s.state)
    && match s.state
      case Idle => time == 0
      case Ready => s.cntr == 0 && time >= At(cfg, Ready)
      case _ => s.cntr <= Entered(cfg, s.state) && time == At(cfg, s.state) + Entered(cfg, s.state) - s.cntr && Fresh(cfg, s)
  }

  /** A command state lasts one cycle. */
  predicate Fresh(cfg: Config, s: Registers) { NextBus(s.state) != DESELECT ==> s.cntr == Entered(cfg, s.state) }

  predicate ReadyOnTime(cfg: Config, s: Registers, time: int) {
    s.ready <==> s.state.Ready? && time >= Latency(cfg)
  }

  predicate CkeOnTime(cfg: Config, s: Registers, time: int) { s.cke <==> time >= CkeTime(cfg) }

  predicate TraceFits(cfg: Config, s: Registers, tr: Trace) {
    && OnTime(cfg, s, tr.time) && PinsHeld(cfg, s) && ReadyOnTime(cfg, s, tr.time) && CkeOnTime(cfg, s, tr.time)
    && tr.log == Sequence(cfg)[..Count(s.state)]
  }

  // ---------------------------------------------------------------- one edge

  predicate FlowEdge(cfg: Config, s: Registers, init: bool, t: Registers) {
    t.state == NextState(cfg, s, init) && t.cntr == NextCntr(cfg, s, init)
  }

  lemma EarlyEdgeKeepsTime(cfg: Config, s: Registers, init: bool, t: Registers, time: int)
    requires OnTime(cfg, s, time) && FlowEdge(cfg, s, init, t) && Count(s.state) < 5
    ensures OnTime(cfg, t, if s.state.Idle? then time else time + 1)
  {
  }

  lemma RefreshEdgeKeepsTime(cfg: Config, s: Registers, init: bool, t: Registers, time: int)
    requires OnTime(cfg, s, time) && FlowEdge(cfg, s, init, t) && 5 <= Count(s.state) < 8
    ensures OnTime(cfg, t, time + 1)
  {
  }

  lemma FinalEdgeKeepsTime(cfg: Config, s: Registers, init: bool, t: Registers, time: int)
    requires OnTime(cfg, s, time) && FlowEdge(cfg, s, init, t) && Count(s.state) >= 8
    ensures OnTime(cfg, t, time + 1)
  {
  }

  lemma EdgeKeepsTime(cfg: Config, s: Registers, init: bool, t: Registers, time: int)
    requires OnTime(cfg, s, time) && FlowEdge(cfg, s, init, t)
    ensures OnTime(cfg, t, if s.state.Idle? then time else time + 1)
  {
    if Count(s.state) < 5 {
      EarlyEdgeKeepsTime(cfg, s, init, t, time);
    } else if Count(s.state) < 8 {
      RefreshEdgeKeepsTime(cfg, s, init, t, time);
    } else {
      FinalEdgeKeepsTime(cfg, s, init, t, time);
    }
  }

  lemma EdgeKeepsPins(cfg: Config, s: Registers, init: bool, t: Registers)
    requires PinsHeld(cfg, s) && t.state == NextState(cfg, s, init) && t.ba == NextBa(s) && t.a == NextA(cfg, s)
    ensures PinsHeld(cfg, t)
  {
  }

  lemma EdgeKeepsReady(cfg: Config, s: Registers, init: bool, t: Registers, time: int)
    requires OnTime(cfg, s, time) && ReadyOnTime(cfg, s, time) && t.state == NextState(cfg, s, init)
    requires t.ready == (s.state.Ready? || (s.ready && !s.state.Idle?))
    requires OnTime(cfg, t, if s.state.Idle? then time else time + 1)
    ensures ReadyOnTime(cfg, t, if s.state.Idle? then time else time + 1)
  {
  }

  lemma PowerUpLasts(cfg: Config, s: Registers, time: int)
    requires OnTime(cfg, s, time)
    ensures time >= cfg.powerUp + 1 <==> !s.state.Idle? && !s.state.PowerUp?
  {
  }

  lemma EdgeKeepsCke(cfg: Config, s: Registers, t: Registers, time: int)
    requires OnTime(cfg, s, time) && CkeOnTime(cfg, s, time) && t.cke == (!s.state.Idle? && !s.state.PowerUp?)
    ensures CkeOnTime(cfg, t, if s.state.Idle? then time else time + 1)
  {
    PowerUpLasts(cfg, s, time);
  }

  lemma CountsOne(cfg: Config, s: Registers, init: bool)
    ensures Count(NextState(cfg, s, init)) == Count(s.state) + if NextBus(s.state) == DESELECT then 0 else 1
  {
  }

  /** What a command state shows is the next entry of the sequence. */
  lemma ShowsNext(cfg: Config, s: Registers, t: Registers, time: int)
    requires OnTime(cfg, s, time) && PinsHeld(cfg, s) && NextBus(s.state) != DESELECT
    requires t.bus == NextBus(s.state) && t.ba == NextBa(s) && t.a == NextA(cfg, s)
    ensures Count(s.state) < 10 && Entry(time + 1, t.bus, t.ba, t.a) == Sequence(cfg)[Count(s.state)]
  {
  }

  lemma RecordGrows(all: seq<Entry>, tr: Trace, s: Registers, t: Registers, k: nat)
    requires k <= |all| && tr.log == all[..k] && (s.state.Idle? ==> t.bus == DESELECT)
    requires t.bus != DESELECT ==> k < |all| && all[k] == Entry(tr.time + 1, t.bus, t.ba, t.a)
    ensures t.bus == DESELECT ==> Record(tr, s, t).log == all[..k]
    ensures t.bus != DESELECT ==> k < |all| && Record(tr, s, t).log == all[..k + 1]
  {
    if t.bus != DESELECT {
      OneMore(all, k);
    } else {
      assert tr.log + [] == tr.log;
    }
  }

  lemma LogGrows(cfg: Config, s: Registers, init: bool, t: Registers, tr: Trace)
    requires OnTime(cfg, s, tr.time) && PinsHeld(cfg, s) && tr.log == Sequence(cfg)[..Count(s.state)]
    requires t.state == NextState(cfg, s, init) && t.bus == NextBus(s.state) && t.ba == NextBa(s) && t.a == NextA(cfg, s)
    ensures Record(tr, s, t).log == Sequence(cfg)[..Count(t.state)]
  {
    CountsOne(cfg, s, init);
    if t.bus != DESELECT {
      ShowsNext(cfg, s, t, tr.time);
    }
    RecordGrows(Sequence(cfg), tr, s, t, Count(s.state));
  }

  lemma OneMore(all: seq<Entry>, k: nat)
    requires k < |all|
    ensures all[..k] + [all[k]] == all[..k + 1]
  {
  }

  lemma StepKeepsTrace(cfg: Config, s: Registers, init: bool, tr: Trace)
    requires TraceFits(cfg, s, tr)
    ensures TraceFits(cfg, Step(cfg, s, false, init), Record(tr, s, Step(cfg, s, false, init)))
  {
    var t := Step(cfg, s, false, init);
    EdgeKeepsTime(cfg, s, init, t, tr.time);
    EdgeKeepsPins(cfg, s, init, t);
    EdgeKeepsReady(cfg, s, init, t, tr.time);
    EdgeKeepsCke(cfg, s, t, tr.time);
    LogGrows(cfg, s, init, t, tr);
  }

  // ---------------------------------------------------------------- whole runs

  datatype Recording = Recording(engine: Registers, trace: Trace)

  /** Runs from reset; the inputs are the levels of the start request. */
  function Run(cfg: Config, inputs: seq<bool>): Recording {
    if inputs == [] then Recording(RESET, Trace([], 0))
    else
      var r := Run(cfg, inputs[..|inputs| - 1]);
      var t := Step(cfg, r.engine, false, inputs[|inputs| - 1]);
      Recording(t, Record(r.trace, r.engine, t))
  }

  lemma {:induction false} RunTraced(cfg: Config, inputs: seq<bool>)
    ensures TraceFits(cfg, Run(cfg, inputs).engine, Run(cfg, inputs).trace)
  {
    if inputs != [] {
      RunTraced(cfg, inputs[..|inputs| - 1]);
      var r := Run(cfg, inputs[..|inputs| - 1]);
      StepKeepsTrace(cfg, r.engine, inputs[|inputs| - 1], r.trace);
    }
  }

  lemma {:induction false} RunTakesTime(cfg: Config, inputs: seq<bool>)
    requires inputs != [] && inputs[0]
    ensures !Run(cfg, inputs).engine.state.Idle? && Run(cfg, inputs).trace.time == |inputs| - 1
  {
    if |inputs| == 1 {
      assert inputs[..0] == [];
      assert Run(cfg, []).engine == RESET;
    } else {
      RunTakesTime(cfg, inputs[..|inputs| - 1]);
      NeverIdleAgain(cfg, Run(cfg, inputs[..|inputs| - 1]).engine, inputs[|inputs| - 1]);
    }
  }

  lemma NeverIdleAgain(cfg: Config, s: Registers, init: bool)
    requires !s.state.Idle?
    ensures NextState(cfg, s, init) != Idle
  {
  }

  /** The entries whose time has come are those the state says have been shown. */
  lemma ShownInTime(cfg: Config, s: Registers, time: int, k: nat)
    requires OnTime(cfg, s, time) && k < 10 && !s.state.Idle?
    ensures Sequence(cfg)[k].at <= time <==> k < Count(s.state)
  {
    if k < Count(s.state) {
      ShownBefore(cfg, s, time, k);
    } else {
      ShownAfter(cfg, s, time, k);
    }
  }

  lemma SequenceRises(cfg: Config, j: nat, k: nat)
    requires j <= k < 10
    ensures Sequence(cfg)[j].at <= Sequence(cfg)[k].at
  {
  }

  lemma EarlyLastShown(cfg: Config, st: State)
    requires 0 < Count(st) <= 5
    ensures Sequence(cfg)[Count(st) - 1].at <= At(cfg, st)
  {
  }

  lemma LateLastShown(cfg: Config, st: State)
    requires Count(st) > 5
    ensures Count(st) <= 10 && Sequence(cfg)[Count(st) - 1].at <= At(cfg, st)
  {
  }

  lemma LastShown(cfg: Config, st: State)
    requires Count(st) > 0
    ensures Count(st) <= 10 && Sequence(cfg)[Count(st) - 1].at <= At(cfg, st)
  {
    if Count(st) <= 5 {
      EarlyLastShown(cfg, st);
    } else {
      LateLastShown(cfg, st);
    }
  }

  lemma TimeAfterEntry(cfg: Config, s: Registers, time: int)
    requires OnTime(cfg, s, time)
    ensures At(cfg, s.state) <= time
  {
  }

  lemma ShownBefore(cfg: Config, s: Registers, time: int, k: nat)
    requires OnTime(cfg, s, time) && k < Count(s.state)
    ensures k < 10 && Sequence(cfg)[k].at <= time
  {
    LastShown(cfg, s.state);
    TimeAfterEntry(cfg, s, time);
    SequenceRises(cfg, k, Count(s.state) - 1);
  }

  /** The last cycle of a state. */
  function Last(cfg: Config, st: State): nat {
    At(cfg, st) + if NextBus(st) == DESELECT then Entered(cfg, st) else 0
  }

  /** A state ends before the next command is on the pins. */
  lemma NextShown(cfg: Config, st: State)
    requires Count(st) < 10 && !st.Idle? && OptionalStates(cfg, st)
    ensures Last(cfg, st) < Sequence(cfg)[Count(st)].at
  {
    if Count(st) < 5 {
      EarlyNextShown(cfg, st);
    } else {
      LateNextShown(cfg, st);
    }
  }

  lemma EarlyNextShown(cfg: Config, st: State)
    requires Count(st) < 5 && !st.Idle? && OptionalStates(cfg, st)
    ensures Last(cfg, st) < Sequence(cfg)[Count(st)].at
  {
  }

  lemma LateNextShown(cfg: Config, st: State)
    requires 5 <= Count(st) < 10 && OptionalStates(cfg, st)
    ensures Last(cfg, st) < Sequence(cfg)[Count(st)].at
  {
  }

  lemma TimeBeforeExit(cfg: Config, s: Registers, time: int)
    requires OnTime(cfg, s, time) && !s.state.Idle? && !s.state.Ready?
    ensures time <= Last(cfg, s.state)
  {
  }

  lemma ShownAfter(cfg: Config, s: Registers, time: int, k: nat)
    requires OnTime(cfg, s, time) && Count(s.state) <= k < 10 && !s.state.Idle?
    ensures Sequence(cfg)[k].at > time
  {
    NextShown(cfg, s.state);
    TimeBeforeExit(cfg, s, time);
    SequenceRises(cfg, Count(s.state), k);
  }

  /**
   * For all parameters, zero included, and all optional windows: n cycles after the start request the pins
   * have shown exactly the commands of the sequence that are due by then, each at its time, CKE is up exactly if
   * the power-up wait is over, and READY exactly if the latency has passed.
   */
  lemma InitialisesOnSchedule(cfg: Config, inputs: seq<bool>)
    requires inputs != [] && inputs[0]
    ensures var n := |inputs| - 1;
      var r := Run(cfg, inputs);
      && (r.engine.ready <==> n >= Latency(cfg)) && (r.engine.cke <==> n >= CkeTime(cfg))
      && |r.trace.log| <= 10 && r.trace.log == Sequence(cfg)[..|r.trace.log|]
      && forall k :: 0 <= k < 10 ==> (k < |r.trace.log| <==> Sequence(cfg)[k].at <= n)
  {
    var r := Run(cfg, inputs);
    RunTraced(cfg, inputs);
    RunTakesTime(cfg, inputs);
    if !r.engine.state.Ready? {
      ReadyLast(cfg, r.engine, r.trace.time);
    }
    forall k | 0 <= k < 10
      ensures k < |r.trace.log| <==> Sequence(cfg)[k].at <= |inputs| - 1
    {
      ShownInTime(cfg, r.engine, r.trace.time, k);
    }
  }

  /** Every other state comes before READY. */
  lemma ReadyLast(cfg: Config, s: Registers, time: int)
    requires OnTime(cfg, s, time) && !s.state.Ready?
    ensures time < Latency(cfg)
  {
    if Count(s.state) < 5 {
      ReadyAfterModes(cfg, s, time);
    } else if Count(s.state) < 8 {
      ReadyAfterRefreshes(cfg, s, time);
    } else {
      ReadyAfterFinal(cfg, s, time);
    }
  }

  lemma ReadyAfterModes(cfg: Config, s: Registers, time: int)
    requires OnTime(cfg, s, time) && Count(s.state) < 5
    ensures time < Latency(cfg)
  {
  }

  lemma ReadyAfterRefreshes(cfg: Config, s: Registers, time: int)
    requires OnTime(cfg, s, time) && 5 <= Count(s.state) < 8
    ensures time < Latency(cfg)
  {
  }

  lemma ReadyAfterFinal(cfg: Config, s: Registers, time: int)
    requires OnTime(cfg, s, time) && Count(s.state) >= 8 && !s.state.Ready?
    ensures time < Latency(cfg)
  {
  }

  /** Without the optional windows and with non-zero waits: the sum of the waits, one more each, and the PREALL gap. */
  lemma PlainLatency(cfg: Config)
    requires cfg.ocdWait == 0 && cfg.zqWait == 0
    requires cfg.tmrd > 0 && cfg.trfc > 0 && cfg.tmrdDll > 0 && cfg.final > 0
    ensures Latency(cfg) == cfg.powerUp + cfg.txsr + 5 * cfg.tmrd + 2 * cfg.trfc + cfg.tmrdDll + cfg.final + 14
    ensures forall trp: nat :: Latency(cfg.(trp := trp)) == Latency(cfg)
  {
  }

  lemma DefaultLatency()
    ensures Latency(DefaultConfig()) == 100_837
  {
  }
}
