/**
 * Self-refresh and power-down as the memory device sees them: nothing but NOPs while CKE is low, never
 * both modes at once, and no command too soon after CKE rises again.
 */
module LowPower {
  import opened DdrBus
  import opened ProtocolEngine
  import opened EngineInvariant
  import opened Phy
  import opened Progress
  import PowerMonitor
  import Init = InitEngine
  import Core

  // ---------------------------------------------------------------- the two mode flags

  /** The self-refresh flag reaches the pins one cycle late. */
  predicate FlagsFit(cfg: Config, s: Registers) {
    && (s.state.SrefIdle? || (s.state.SrefExitWait? && s.cnt == cfg.exitSelfRefresh) ==> s.selfRefreshOut)
    && (s.selfRefreshOut ==>
      s.state.SrefIdle? || (s.state.SrefExitWait? && s.cnt == cfg.exitSelfRefresh) || s.state.Idle?)
    && (s.selfRefreshOut || s.powerDown ==> s.bus == NOP || (s.bus == DESELECT && s.powerDown))
  }

  lemma StepKeepsFlags(cfg: Config, s: Registers, i: Inputs)
    requires cfg.Valid() && Inv(cfg, s) && FlagsFit(cfg, s) && !i.reset
    ensures FlagsFit(cfg, Step(cfg, s, i))
  {
    StepEdges(cfg, s, i);
    EdgeKeepsFlags(cfg, s, i, Step(cfg, s, i));
  }

  lemma EdgeKeepsFlags(cfg: Config, s: Registers, i: Inputs, t: Registers)
    requires cfg.Valid() && PowerFits(s) && CommandFits(s) && CountFits(cfg, s)
    requires FlowEdge(cfg, s, i, t) && t.bus == NextBus(s)
    requires t.selfRefreshOut == s.selfRefresh && t.powerDown == NextPowerDown(s, i)
    ensures FlagsFit(cfg, t)
  {
    SelfRefreshFlow(cfg, s, i, t);
    LowBus(s, i);
  }

  lemma SelfRefreshFlow(cfg: Config, s: Registers, i: Inputs, t: Registers)
    requires cfg.Valid() && PowerFits(s) && CommandFits(s) && CountFits(cfg, s) && FlowEdge(cfg, s, i, t)
    ensures t.state.SrefIdle? || (t.state.SrefExitWait? && t.cnt == cfg.exitSelfRefresh) ==> s.selfRefresh
    ensures s.selfRefresh ==> t.state.SrefIdle? || (t.state.SrefExitWait? && t.cnt == cfg.exitSelfRefresh) || t.state.Idle?
  {
  }

  /** What is on the command lines when CKE goes low. */
  lemma LowBus(s: Registers, i: Inputs)
    requires PowerFits(s)
    ensures s.selfRefresh ==> NextBus(s) == NOP
    ensures NextPowerDown(s, i) ==> NextBus(s) == NOP || NextBus(s) == DESELECT
  {
  }

  /** Never both modes, neither inside the engine nor on the status outputs. */
  lemma ModesExclude(cfg: Config, s: Registers)
    requires Inv(cfg, s) && FlagsFit(cfg, s)
    ensures !(s.selfRefresh && s.powerDown) && !(s.selfRefreshOut && s.powerDown)
    ensures s.powerDown <==> s.state.PdIdle?
    ensures s.selfRefresh ==> s.state.SrefEnter? || s.state.SrefIdle?
  {
  }

  // ---------------------------------------------------------------- the engine's own assertions

  /** What the engine's low-power assertions look for in each cycle. */
  predicate SelfRefreshAssertionFires(s: Registers) {
    s.selfRefresh && !(s.state.SrefIdle? || s.state.SrefExitWait?)
  }

  predicate PowerDownAssertionFires(s: Registers) {
    s.powerDown && !(s.state.PdIdle? || s.state.PdExitWait?)
  }

  lemma OnlyEntryLeadsIn(a: State, b: State)
    requires Arrow(a, b) && a != SrefIdle && b == SrefIdle
    ensures a == SrefEnter
  {
  }

  lemma EntryPath(cfg: Config, s: Registers, i: Inputs, t: Registers)
    requires CommandFits(s) && t.state == NextState(cfg, s, i) && !s.state.SrefIdle? && t.state.SrefIdle?
    ensures s.state.SrefEnter? && s.cnt == 0
  {
    EdgeFollowsArrow(cfg, s, i, t);
    OnlyEntryLeadsIn(s.state, t.state);
  }

  /**
   * The power-down assertion never fires. The self-refresh assertion fires in one state only, and no run
   * reaches self-refresh without passing through it.
   */
  lemma AssertionsFire(cfg: Config, s: Registers, i: Inputs)
    requires Inv(cfg, s) && !i.reset
    ensures !PowerDownAssertionFires(s)
    ensures SelfRefreshAssertionFires(s) <==> s.state.SrefEnter? && s.cnt == 0
    ensures !s.state.SrefIdle? && Step(cfg, s, i).state.SrefIdle? ==> SelfRefreshAssertionFires(s)
  {
    StepEdges(cfg, s, i);
    if !s.state.SrefIdle? && Step(cfg, s, i).state.SrefIdle? {
      EntryPath(cfg, s, i, Step(cfg, s, i));
    }
  }

  // ---------------------------------------------------------------- waking up

  datatype Mode = NoMode | SelfRefresh | PowerDown

  /** How long CKE was last low, in which mode, and how long it has been high since. */
  datatype Watch = Watch(mode: Mode, low: int, high: int)

  const UNSEEN := Watch(NoMode, 0, 0)

  function Observe(w: Watch, p: Pins, powerDown: bool): Watch {
    if p.cke then w.(high := w.high + 1)
    else Watch(if powerDown then PowerDown else SelfRefresh, if w.mode != NoMode && w.high == 0 then w.low + 1 else 1, 0)
  }

  predicate IsCommand(b: Bus) { b != NOP && b != DESELECT }

  /** A command comes before the device had its exit time. */
  predicate WakesTooSoon(cfg: Config, w: Watch, p: Pins) {
    && p.cke && IsCommand(p.bus)
    && match w.mode
      case NoMode => false
      case SelfRefresh => w.high < cfg.exitSelfRefresh + 2
      case PowerDown => w.high < cfg.exitPowerDown + 3
  }

  /** Self-refresh called off in the second cycle of its entry state, when CKE is already on its way down. */
  predicate Pulses(s: Registers, i: Inputs) { s.state.SrefEnter? && s.cnt == 0 && i.selfRefreshExit }

  /** Since the last low-power mode the exit time and k - 2 more cycles have passed, unless it was but a pulse. */
  predicate Rested(cfg: Config, w: Watch, pulsed: bool, k: int) {
    match w.mode
    case NoMode => w.low == 0 && !pulsed
    case SelfRefresh => if pulsed then w.low == 1 && w.high >= k - 1 else w.low >= 2 && w.high >= cfg.exitSelfRefresh + k
    case PowerDown => !pulsed && w.low >= 1 && w.high >= cfg.exitPowerDown + 1 + k
  }

  predicate WatchFits(cfg: Config, s: Registers, w: Watch, pulsed: bool) {
    match s.state
    case SrefIdle => w.mode == SelfRefresh && w.high == 0 && w.low >= 1 && !pulsed
    case SrefExitWait => w.mode == SelfRefresh && w.high == cfg.exitSelfRefresh - s.cnt && w.low >= 2 && !pulsed
    case PdIdle => w.mode == PowerDown && w.high == 0 && w.low >= 1 && !pulsed
    case PdExitWait => w.mode == PowerDown && w.high == cfg.exitPowerDown + 1 - s.cnt && w.low >= 1 && !pulsed
    case Idle => Rested(cfg, w, pulsed, 1)
    case _ => Rested(cfg, w, pulsed, 2)
  }

  /** Whether the last time CKE was low it was the pulse of an entry called off. */
  function NextPulsed(s: Registers, i: Inputs, t: Registers, pulsed: bool): bool {
    Pulses(s, i) || (pulsed && EnginePins(t).cke)
  }

  predicate WakeEdge(cfg: Config, s: Registers, i: Inputs, t: Registers) {
    && FlowEdge(cfg, s, i, t) && t.bus == NextBus(s)
    && t.selfRefreshOut == s.selfRefresh && t.powerDown == NextPowerDown(s, i)
  }

  predicate Dozing(st: State) { PhaseOf(st) == LowPower && !st.Idle? }

  predicate PoweringDown(st: State) { st.PdPre? || st.PdTrp? || st.PdIdle? || st.PdExitWait? }

  lemma SelfRefreshKeepsWatch(cfg: Config, s: Registers, i: Inputs, t: Registers, w: Watch, pulsed: bool)
    requires cfg.Valid() && PowerFits(s) && CountFits(cfg, s) && FlagsFit(cfg, s) && WatchFits(cfg, s, w, pulsed)
    requires WakeEdge(cfg, s, i, t) && CommandFits(s) && Dozing(s.state) && !PoweringDown(s.state)
    ensures WatchFits(cfg, t, Observe(w, EnginePins(t), t.powerDown), NextPulsed(s, i, t, pulsed))
  {
  }

  /** The steps of a power-down visit. */
  predicate PowerDownMoves(cfg: Config, s: Registers, t: Registers) {
    && !t.selfRefreshOut && (t.powerDown <==> t.state.PdIdle?)
    && match t.state
      case Idle => s.state.PdPre? || s.state.PdTrp? || (s.state.PdExitWait? && s.cnt == 0)
      case PdPre => s.state.PdPre?
      case PdTrp => s.state.PdPre? || s.state.PdTrp?
      case PdIdle => s.state.PdTrp? || s.state.PdIdle?
      case PdExitWait => if s.state.PdIdle? then t.cnt == cfg.exitPowerDown else s.state.PdExitWait? && t.cnt == s.cnt - 1
      case _ => false
  }

  lemma PowerDownFlow(cfg: Config, s: Registers, i: Inputs, t: Registers)
    requires !s.selfRefresh && 0 <= s.cnt && WakeEdge(cfg, s, i, t) && PoweringDown(s.state) && (s.powerDown <==> s.state.PdIdle?)
    ensures PowerDownMoves(cfg, s, t)
  {
  }

  lemma PowerDownKeepsWatch(cfg: Config, s: Registers, i: Inputs, t: Registers, w: Watch, pulsed: bool)
    requires cfg.Valid() && WatchFits(cfg, s, w, pulsed) && PoweringDown(s.state) && PowerDownMoves(cfg, s, t)
    ensures WatchFits(cfg, t, Observe(w, EnginePins(t), t.powerDown), NextPulsed(s, i, t, pulsed))
  {
  }

  lemma BusyKeepsWatch(cfg: Config, s: Registers, i: Inputs, t: Registers, w: Watch, pulsed: bool)
    requires PowerFits(s) && CommandFits(s) && WatchFits(cfg, s, w, pulsed)
    requires WakeEdge(cfg, s, i, t) && !Dozing(s.state)
    ensures WatchFits(cfg, t, Observe(w, EnginePins(t), t.powerDown), NextPulsed(s, i, t, pulsed))
  {
    BusyFlow(cfg, s, i, t);
  }

  lemma BusyFlow(cfg: Config, s: Registers, i: Inputs, t: Registers)
    requires PowerFits(s) && CommandFits(s) && WakeEdge(cfg, s, i, t) && !Dozing(s.state)
    ensures EnginePins(t).cke && (Dozing(t.state) ==> t.state.SrefPre? || t.state.PdPre?)
    ensures t.state.Idle? || !s.state.Idle? || PhaseOf(t.state) != LowPower || Dozing(t.state)
  {
    if s.state.Idle? {
      IdleFlow(cfg, s, i, t);
    } else {
      EdgeFollowsArrow(cfg, s, i, t);
      OnlyIdleStartsLowPower(s.state, t.state);
    }
  }

  lemma IdleFlow(cfg: Config, s: Registers, i: Inputs, t: Registers)
    requires s.state.Idle? && t.state == NextState(cfg, s, i)
    ensures Dozing(t.state) ==> t.state.SrefPre? || t.state.PdPre?
  {
  }

  lemma CommandsWait(cfg: Config, s: Registers, i: Inputs, t: Registers, w: Watch, pulsed: bool)
    requires cfg.Valid() && WatchFits(cfg, s, w, pulsed) && t.bus == NextBus(s)
    requires CommandFits(s) && BusHeld(s)
    ensures !pulsed ==> !WakesTooSoon(cfg, w, EnginePins(t))
  {
  }

  lemma StepKeepsWatch(cfg: Config, s: Registers, i: Inputs, t: Registers, w: Watch, pulsed: bool)
    requires cfg.Valid() && Inv(cfg, s) && FlagsFit(cfg, s) && WatchFits(cfg, s, w, pulsed) && WakeEdge(cfg, s, i, t)
    ensures WatchFits(cfg, t, Observe(w, EnginePins(t), t.powerDown), NextPulsed(s, i, t, pulsed))
    ensures !pulsed ==> !WakesTooSoon(cfg, w, EnginePins(t))
  {
    CommandsWait(cfg, s, i, t, w, pulsed);
    if PoweringDown(s.state) {
      PowerDownFlow(cfg, s, i, t);
      PowerDownKeepsWatch(cfg, s, i, t, w, pulsed);
    } else if Dozing(s.state) {
      SelfRefreshKeepsWatch(cfg, s, i, t, w, pulsed);
    } else {
      BusyKeepsWatch(cfg, s, i, t, w, pulsed);
    }
  }

  // ---------------------------------------------------------------- the pulse

  lemma PulseEdge(cfg: Config, s: Registers, i: Inputs, t: Registers)
    requires PowerFits(s) && Pulses(s, i) && WakeEdge(cfg, s, i, t)
    ensures t.state.Idle? && !t.powerDown && t.selfRefreshOut && t.bus == NOP
  {
  }

  /** Calling off self-refresh in the second cycle of its entry state drops CKE for exactly one cycle. */
  lemma AbortPulsesCke(cfg: Config, s: Registers, i: Inputs, j: Inputs)
    requires Inv(cfg, s) && Pulses(s, i) && !i.reset && !j.reset
    ensures Step(cfg, s, i).state.Idle? && !Step(cfg, s, i).selfRefresh && !Step(cfg, s, i).powerDown
    ensures EnginePins(Step(cfg, s, i)) == Pins(false, NOP, s.ba, s.a)
    ensures EnginePins(Step(cfg, Step(cfg, s, i), j)).cke
  {
    var t := Step(cfg, s, i);
    StepEdges(cfg, s, i);
    PulseEdge(cfg, s, i, t);
    WakesFromIdle(cfg, t, j);
  }

  lemma WakesFromIdle(cfg: Config, t: Registers, j: Inputs)
    requires t.state.Idle? && !t.selfRefresh && !t.powerDown && !j.reset
    ensures EnginePins(Step(cfg, t, j)).cke
  {
    StepEdges(cfg, t, j);
  }

  /** IDLE accepts the next request at once: PRECHARGE comes two cycles later, pulse or no pulse. */
  lemma IdleStartsSelfRefresh(cfg: Config, t: Registers, j: Inputs, k: Inputs)
    requires t.state.Idle? && !t.selfRefresh && !t.powerDown && j.ready && j.selfRefreshReq && !j.reset && !k.reset
    ensures var u := Step(cfg, t, j);
      EnginePins(u).cke && EnginePins(Step(cfg, u, k)) == Pins(true, PRECHARGE, t.ba, PRECHARGE_ALL)
  {
    StepEdges(cfg, t, j);
    StepEdges(cfg, Step(cfg, t, j), k);
  }

  // ---------------------------------------------------------------- whole runs

  /** `watch` has sampled the pins of the current cycle. */
  datatype Bench = Bench(core: Core.State, watch: Watch, pulsed: bool)

  function BenchStep(cfg: Core.Config, b: Bench, i: Core.Inputs): Bench {
    var c := Core.Step(cfg, b.core, i);
    if !c.init.ready then Bench(c, UNSEEN, false)
    else Bench(c, Observe(b.watch, Core.Pads(c), c.engine.powerDown),
               NextPulsed(b.core.engine, Core.EngineInputs(b.core, i), c.engine, b.pulsed))
  }

  predicate BenchReset(cfg: Core.Config, b: Bench) { Core.IsReset(cfg, b.core) && b.watch == UNSEEN && !b.pulsed }

  /** The states of a run from reset under these inputs. */
  predicate IsRun(cfg: Core.Config, trace: seq<Bench>, inputs: seq<Core.Inputs>) {
    && |trace| == |inputs| + 1 && BenchReset(cfg, trace[0])
    && forall n: nat {:trigger BenchStep(cfg, trace[n], inputs[n])} :: n < |inputs| ==>
      trace[n + 1] == BenchStep(cfg, trace[n], inputs[n])
  }

  predicate StateFits(cfg: Core.Config, b: Bench) {
    var s := b.core.engine;
    && Core.Fits(cfg, b.core) && FlagsFit(cfg.engine, s)
    && (b.core.init.cke || b.core.init.bus == DESELECT)
    && if b.core.init.ready then WatchFits(cfg.engine, s, b.watch, b.pulsed) else b.watch == UNSEEN && !b.pulsed
  }

  lemma StartFits(cfg: Core.Config, b: Bench)
    requires cfg.Valid() && BenchReset(cfg, b)
    ensures StateFits(cfg, b)
  {
    Core.ResetFits(cfg, b.core);
  }

  lemma InitPinsRest(cfg: Core.Config, c: Core.State, i: Core.Inputs)
    requires !i.reset
    ensures var init := Core.Step(cfg, c, i).init; init.cke || init.bus == DESELECT
  {
  }

  lemma ReadyStepFits(cfg: Core.Config, b: Bench, i: Core.Inputs)
    requires cfg.Valid() && StateFits(cfg, b) && b.core.init.ready && !i.reset
    ensures StateFits(cfg, BenchStep(cfg, b, i))
    ensures !b.pulsed ==> !WakesTooSoon(cfg.engine, b.watch, Core.Pads(Core.Step(cfg, b.core, i)))
  {
    var wires := Core.EngineInputs(b.core, i);
    var s := b.core.engine;
    Core.StepFits(cfg, b.core, i);
    Core.ReadyStays(cfg, b.core, i);
    StepKeepsFlags(cfg.engine, s, wires);
    StepEdges(cfg.engine, s, wires);
    StepKeepsWatch(cfg.engine, s, wires, Step(cfg.engine, s, wires), b.watch, b.pulsed);
    InitPinsRest(cfg, b.core, i);
  }

  lemma WaitingStepFits(cfg: Core.Config, b: Bench, i: Core.Inputs)
    requires cfg.Valid() && StateFits(cfg, b) && !b.core.init.ready && !i.reset
    ensures StateFits(cfg, BenchStep(cfg, b, i))
  {
    Core.StepFits(cfg, b.core, i);
    Core.StepKeepsWaiting(cfg, b.core, i);
    InitPinsRest(cfg, b.core, i);
  }

  lemma StepFits(cfg: Core.Config, b: Bench, i: Core.Inputs)
    requires cfg.Valid() && StateFits(cfg, b)
    ensures StateFits(cfg, BenchStep(cfg, b, i))
  {
    if i.reset {
      StartFits(cfg, BenchStep(cfg, b, i));
    } else if b.core.init.ready {
      ReadyStepFits(cfg, b, i);
    } else {
      WaitingStepFits(cfg, b, i);
    }
  }

  lemma NextFits(cfg: Core.Config, trace: seq<Bench>, inputs: seq<Core.Inputs>, n: nat)
    requires cfg.Valid() && IsRun(cfg, trace, inputs) && n < |inputs| && StateFits(cfg, trace[n])
    ensures StateFits(cfg, trace[n + 1])
  {
    assert trace[n + 1] == BenchStep(cfg, trace[n], inputs[n]);
    StepFits(cfg, trace[n], inputs[n]);
  }

  lemma {:induction false} RunKeepsFits(cfg: Core.Config, trace: seq<Bench>, inputs: seq<Core.Inputs>, n: nat)
    requires cfg.Valid() && IsRun(cfg, trace, inputs) && n < |trace| && StateFits(cfg, trace[0])
    ensures StateFits(cfg, trace[n])
  {
    if n > 0 {
      RunKeepsFits(cfg, trace, inputs, n - 1);
      NextFits(cfg, trace, inputs, n - 1);
    }
  }

  lemma RunFits(cfg: Core.Config, trace: seq<Bench>, inputs: seq<Core.Inputs>, n: nat)
    requires cfg.Valid() && IsRun(cfg, trace, inputs) && n < |trace|
    ensures StateFits(cfg, trace[n])
  {
    StartFits(cfg, trace[0]);
    RunKeepsFits(cfg, trace, inputs, n);
  }

  /**
   * On every run from reset, in every cycle: the power monitor is content and the two modes exclude each
   * other, inside the engine and on the status outputs.
   */
  lemma RunIsSafe(cfg: Core.Config, trace: seq<Bench>, inputs: seq<Core.Inputs>, n: nat)
    requires cfg.Valid() && IsRun(cfg, trace, inputs) && n < |trace|
    ensures var s := trace[n].core.engine;
      && !PowerMonitor.Violates(Core.Pads(trace[n].core))
      && !(s.selfRefresh && s.powerDown) && !(s.selfRefreshOut && s.powerDown)
  {
    RunFits(cfg, trace, inputs, n);
    ModesExclude(cfg.engine, trace[n].core.engine);
  }

  /**
   * On every run, unless CKE was last low for a pulse, no command comes before the exit time of the mode; and
   * a period of self-refresh that is over has lasted a single cycle exactly if it was such a pulse.
   */
  lemma CommandsAwaitExit(cfg: Core.Config, trace: seq<Bench>, inputs: seq<Core.Inputs>, n: nat)
    requires cfg.Valid() && IsRun(cfg, trace, inputs) && n < |inputs|
    ensures trace[n].core.init.ready && !inputs[n].reset && !trace[n].pulsed ==>
              !WakesTooSoon(cfg.engine, trace[n].watch, Core.Pads(trace[n + 1].core))
    ensures var w := trace[n].watch; w.mode == SelfRefresh && w.high > 0 ==> (trace[n].pulsed <==> w.low == 1)
  {
    RunFits(cfg, trace, inputs, n);
    if trace[n].core.init.ready && !inputs[n].reset {
      assert trace[n + 1] == BenchStep(cfg, trace[n], inputs[n]);
      ReadyStepFits(cfg, trace[n], inputs[n]);
    }
  }

  /** Every pulse on a run, followed by a self-refresh request in the next cycle, wakes the device too soon. */
  lemma PulseWakesTooSoon(cfg: Core.Config, trace: seq<Bench>, inputs: seq<Core.Inputs>, n: nat)
    requires cfg.Valid() && IsRun(cfg, trace, inputs) && n + 2 < |inputs|
    requires !inputs[n].reset && !inputs[n + 1].reset && !inputs[n + 2].reset
    requires Pulses(trace[n].core.engine, Core.EngineInputs(trace[n].core, inputs[n])) && inputs[n + 1].wires.selfRefreshReq
    ensures trace[n + 1].watch == Watch(SelfRefresh, 1, 0)
    ensures WakesTooSoon(cfg.engine, trace[n + 2].watch, Core.Pads(trace[n + 3].core))
  {
    RunFits(cfg, trace, inputs, n);
    assert trace[n + 1] == BenchStep(cfg, trace[n], inputs[n]);
    assert trace[n + 2] == BenchStep(cfg, trace[n + 1], inputs[n + 1]);
    assert trace[n + 3] == BenchStep(cfg, trace[n + 2], inputs[n + 2]);
    PulseStep(cfg, trace[n], inputs[n]);
    RequestStep(cfg, trace[n + 1], inputs[n + 1], inputs[n + 2]);
  }

  lemma RequestStep(cfg: Core.Config, b: Bench, j: Core.Inputs, k: Core.Inputs)
    requires b.core.init.ready && b.core.init.state.Ready? && b.watch == Watch(SelfRefresh, 1, 0)
    requires var s := b.core.engine; s.state.Idle? && !s.selfRefresh && !s.powerDown
    requires cfg.Valid() && !j.reset && !k.reset && j.wires.selfRefreshReq
    ensures var n := BenchStep(cfg, b, j); WakesTooSoon(cfg.engine, n.watch, Core.Pads(BenchStep(cfg, n, k).core))
  {
    var c := Core.Step(cfg, b.core, j);
    Core.ReadyStays(cfg, b.core, j);
    Core.ReadyStays(cfg, c, k);
    IdleStartsSelfRefresh(cfg.engine, b.core.engine, Core.EngineInputs(b.core, j), Core.EngineInputs(c, k));
  }

  lemma PulseStep(cfg: Core.Config, b: Bench, i: Core.Inputs)
    requires cfg.Valid() && StateFits(cfg, b) && !i.reset && Pulses(b.core.engine, Core.EngineInputs(b.core, i))
    ensures var n := BenchStep(cfg, b, i);
      && n.watch == Watch(SelfRefresh, 1, 0) && n.core.init.ready && n.core.init.state.Ready?
      && n.core.engine.state.Idle? && !n.core.engine.selfRefresh && !n.core.engine.powerDown
  {
    var s := b.core.engine;
    var wires := Core.EngineInputs(b.core, i);
    Core.ReadyStays(cfg, b.core, i);
    AbortPulsesCke(cfg.engine, s, wires, wires);
    PulseBegins(cfg.engine, s, b.watch, b.pulsed);
  }

  lemma PulseBegins(cfg: Config, s: Registers, w: Watch, pulsed: bool)
    requires cfg.Valid() && s.state.SrefEnter? && WatchFits(cfg, s, w, pulsed)
    ensures w.mode == NoMode || w.high > 0
  {
  }
}

/**
 * The DLL interlock survives reset, and nothing but the end of a DLL sequence clears it: a reset in the
 * middle of one wedges it for good.
 */
module DllInterlock {
  import opened ProtocolEngine
  import opened EngineInvariant
  import opened Progress

  /** The engine believes a DLL change is under way, but is not working on one. */
  predicate Wedged(s: Registers) { s.dllInProgress && !InDll(s.state) }

  /** The only way into the wedge is a reset while a DLL change is under way, and there is no way out. */
  lemma StepWedges(cfg: Config, s: Registers, i: Inputs)
    requires Inv(cfg, s)
    ensures Wedged(Step(cfg, s, i)) <==> Wedged(s) || (i.reset && InDll(s.state))
  {
    if !i.reset {
      StepEdges(cfg, s, i);
      EdgeWedges(cfg, s, i, Step(cfg, s, i));
    }
  }

  lemma EdgeWedges(cfg: Config, s: Registers, i: Inputs, t: Registers)
    requires CommandFits(s) && DllFits(cfg, s) && t.state == NextState(cfg, s, i)
    requires t.dllInProgress == (StartsDll(cfg, s, i) || (s.dllInProgress && !(s.state.DllTdllk? && s.dllCnt == 0)))
    ensures Wedged(t) <==> Wedged(s)
  {
    if !InDll(s.state) && !s.state.Idle? {
      EdgeFollowsArrow(cfg, s, i, t);
      OnlyIdleStartsDll(s.state, t.state);
    }
  }

  /** Once wedged, on every run, resets included: no DLL change is ever accepted again and DLL_BUSY stays up. */
  lemma {:induction false} WedgedForever(cfg: Config, s: Registers, inputs: seq<Inputs>)
    requires cfg.Valid() && Inv(cfg, s) && Wedged(s)
    ensures Inv(cfg, Run(cfg, s, inputs)) && Wedged(Run(cfg, s, inputs))
    ensures forall i :: !StartsDll(cfg, Run(cfg, s, inputs), i)
    ensures s.dllBusy ==> Run(cfg, s, inputs).dllBusy
    decreases |inputs|
  {
    if inputs != [] {
      StepWedges(cfg, s, inputs[0]);
      if inputs[0].reset {
        ResetKeepsInv(cfg, s);
      } else {
        StepKeepsInv(cfg, s, inputs[0]);
        StepEdges(cfg, s, inputs[0]);
      }
      WedgedForever(cfg, Step(cfg, s, inputs[0]), inputs[1..]);
    }
  }
}
