/**
 * When AUTO REFRESH commands come: not before the threshold and not after the longest interval, counted from
 * the last reload of the refresh counter. A refresh reloads it, but so does calling off a low-power entry.
 */
module RefreshBound {
  import opened DdrBus
  import opened RefreshMonitor
  import opened ProtocolEngine
  import opened EngineInvariant
  import opened Phy
  import opened Progress
  import Timing = TimingSafety
  import Core

  predicate Awake(s: Registers) { PhaseOf(s.state) != LowPower || s.state.Idle? }

  /** The monitor counts an edge if it finds CKE high after it. */
  function Tick(s: Registers, t: Registers): int { if s.selfRefresh || t.powerDown then 0 else 1 }

  const REFRESH_PATH := 12

  /** Counted cycles until IDLE of a low-power visit that is not called off. */
  function VisitTime(cfg: Config, s: Registers): int {
    match s.state
    case SrefPre => s.cnt + cfg.exitSelfRefresh + 11
    case SrefTrp => s.cnt + cfg.exitSelfRefresh + 3
    case SrefEnter => s.cnt + cfg.exitSelfRefresh + 1
    case SrefIdle => cfg.exitSelfRefresh + 1
    case PdPre => s.cnt + cfg.exitPowerDown + 10
    case PdTrp => s.cnt + cfg.exitPowerDown + 2
    case PdIdle => cfg.exitPowerDown + 2
    case _ => s.cnt + 1
  }

  /** Counted cycles until the AUTO REFRESH is on the pins, once it is due or a visit will make it due. */
  function TimeToRefresh(cfg: Config, s: Registers): int {
    match s.state
    case RPre => s.cnt + 10
    case RNop => s.cnt + 2
    case RRef => 1
    case _ => (if Awake(s) then Rank(cfg, s) else VisitTime(cfg, s)) + REFRESH_PATH
  }

  function Slack(cfg: Config): int { BusyBound(cfg) + REFRESH_PATH + 1 }

  /** The longest interval between refreshes: down to the threshold, then the busiest possible stretch. */
  function Interval(cfg: Config): int {
    (if cfg.refreshInit > cfg.refreshUrgent then cfg.refreshInit - cfg.refreshUrgent else 0) + Slack(cfg)
  }

  /** How far the monitor's count can have got since the reload. */
  predicate InTime(cfg: Config, s: Registers, cycles: int) {
    if Awake(s) && s.refCnt >= cfg.refreshUrgent then cycles <= cfg.refreshInit - s.refCnt
    else cycles + TimeToRefresh(cfg, s) <= Interval(cfg)
  }

  predicate Enters(cfg: Config, s: Registers, i: Inputs) {
    s.state.Idle? && (Arbitrate(cfg, s, i) == ToSelfRefresh || Arbitrate(cfg, s, i) == ToPowerDown)
  }

  /** Self-refresh goes before a refresh that is due, and puts it off by this much. */
  predicate Detours(cfg: Config, s: Registers, i: Inputs) {
    s.state.Idle? && Arbitrate(cfg, s, i) == ToSelfRefresh && s.refCnt < cfg.refreshUrgent
  }

  function Detour(cfg: Config): int { cfg.exitSelfRefresh + 13 }

  predicate WakesUp(s: Registers) { (s.state.SrefExitWait? || s.state.PdExitWait?) && s.cnt == 0 }

  // ---------------------------------------------------------------- not after the longest interval

  lemma EdgeStaysAwake(cfg: Config, s: Registers, i: Inputs, t: Registers)
    requires CommandFits(s) && t.state == NextState(cfg, s, i) && Awake(s) && !Enters(cfg, s, i)
    ensures Awake(t)
  {
  }

  lemma CountdownFalls(cfg: Config, s: Registers, i: Inputs, t: Registers)
    requires cfg.Valid() && Inv(cfg, s) && t == Step(cfg, s, i) && !i.reset && i.ready
    requires Awake(s) && Awake(t) && !Enters(cfg, s, i) && !s.state.RRef? && s.refCnt < cfg.refreshUrgent
    ensures TimeToRefresh(cfg, t) < TimeToRefresh(cfg, s)
  {
    StepEdges(cfg, s, i);
    if s.state.Idle? || PhaseOf(s.state) == Refreshing {
      RefreshCountdownFalls(cfg, s, i, t);
    } else {
      StepRankFalls(cfg, s, i);
      EdgeFollowsArrow(cfg, s, i, t);
      OnlyIdleStartsRefresh(s.state, t.state);
    }
  }

  lemma RefreshCountdownFalls(cfg: Config, s: Registers, i: Inputs, t: Registers)
    requires cfg.Valid() && CountFits(cfg, s) && PowerFits(s) && FlowEdge(cfg, s, i, t) && i.ready
    requires s.state.Idle? || (PhaseOf(s.state) == Refreshing && !s.state.RRef?)
    requires !Enters(cfg, s, i) && s.refCnt < cfg.refreshUrgent
    ensures TimeToRefresh(cfg, t) < TimeToRefresh(cfg, s)
  {
  }

  lemma OnlyIdleStartsRefresh(a: State, b: State)
    requires Arrow(a, b) && a != Idle && PhaseOf(a) != Refreshing
    ensures PhaseOf(b) != Refreshing
  {
  }

  lemma RefreshTimeBounded(cfg: Config, s: Registers)
    requires cfg.Valid() && Inv(cfg, s)
    ensures 0 < TimeToRefresh(cfg, s) < Slack(cfg)
  {
    RankBounded(cfg, s);
  }

  /** The refresh counter and the monitor's count move in step. */
  lemma InTimeMoves(cfg: Config, s: Registers, t: Registers, cycles: int, next: int)
    requires cfg.Valid() && cfg.refreshUrgent > 0 && Awake(s) && Awake(t) && !s.state.RRef?
    requires 0 <= s.refCnt <= cfg.refreshInit && InTime(cfg, s, cycles) && 0 < TimeToRefresh(cfg, t) < Slack(cfg)
    requires next <= cycles + 1 && t.refCnt == (if s.refCnt > 0 then s.refCnt - 1 else s.refCnt)
    requires s.refCnt < cfg.refreshUrgent ==> TimeToRefresh(cfg, t) < TimeToRefresh(cfg, s)
    ensures InTime(cfg, t, next)
  {
  }

  lemma AwakeStaysInTime(cfg: Config, s: Registers, i: Inputs, cycles: int, next: int)
    requires cfg.Valid() && cfg.refreshUrgent > 0
    requires Inv(cfg, s) && !i.reset && i.ready && Awake(s) && !Enters(cfg, s, i) && !s.state.RRef?
    requires InTime(cfg, s, cycles) && next <= cycles + 1
    ensures InTime(cfg, Step(cfg, s, i), next)
  {
    var t := Step(cfg, s, i);
    StepEdges(cfg, s, i);
    StepKeepsInv(cfg, s, i);
    EdgeStaysAwake(cfg, s, i, t);
    RefreshTimeBounded(cfg, t);
    CountsDown(cfg, s, i, t);
    if s.refCnt < cfg.refreshUrgent {
      CountdownFalls(cfg, s, i, t);
    }
    InTimeMoves(cfg, s, t, cycles, next);
  }

  lemma CountsDown(cfg: Config, s: Registers, i: Inputs, t: Registers)
    requires PowerFits(s) && Awake(s) && !s.state.RRef? && i.ready && t.refCnt == NextRefCnt(cfg, s, i)
    ensures t.refCnt == if s.refCnt > 0 then s.refCnt - 1 else s.refCnt
  {
  }

  /** The counter as a refresh or an abort leaves it. */
  lemma ReloadedIsInTime(cfg: Config, t: Registers, cycles: int)
    requires cfg.Valid() && Inv(cfg, t) && t.refCnt == cfg.refreshInit && Awake(t) && cycles <= 0
    ensures InTime(cfg, t, cycles)
  {
    RefreshTimeBounded(cfg, t);
  }

  lemma ReloadRefills(cfg: Config, s: Registers, i: Inputs, t: Registers)
    requires CountFits(cfg, s) && FlowEdge(cfg, s, i, t) && t.refCnt == NextRefCnt(cfg, s, i) && (s.state.RRef? || Aborts(s, i))
    ensures t.refCnt == cfg.refreshInit && Awake(t)
  {
  }

  /** A visit begun before a refresh is due costs nothing; a detour costs what it puts the refresh off. */
  lemma EntryStaysInTime(cfg: Config, s: Registers, i: Inputs, t: Registers, cycles: int, next: int)
    requires cfg.Valid() && 0 <= s.refCnt && InTime(cfg, s, cycles) && FlowEdge(cfg, s, i, t) && Enters(cfg, s, i)
    requires next <= cycles + 1 - if Detours(cfg, s, i) then Detour(cfg) else 0
    ensures InTime(cfg, t, next)
  {
  }

  /** Exactly one counted cycle less on every counted edge. */
  lemma VisitTimeFalls(cfg: Config, s: Registers, i: Inputs, t: Registers)
    requires PowerFits(s) && CountFits(cfg, s) && CommandFits(s) && !Awake(s) && !Aborts(s, i)
    requires FlowEdge(cfg, s, i, t) && t.powerDown == NextPowerDown(s, i)
    ensures if Awake(t) then t.state.Idle? && WakesUp(s) && VisitTime(cfg, s) == 1 == Tick(s, t)
            else VisitTime(cfg, t) == VisitTime(cfg, s) - Tick(s, t)
  {
  }

  lemma VisitStaysInTime(cfg: Config, s: Registers, i: Inputs, t: Registers, cycles: int, next: int)
    requires cfg.Valid() && cfg.refreshUrgent > 0 && !Awake(s) && !Aborts(s, i)
    requires PowerFits(s) && CountFits(cfg, s) && CommandFits(s)
    requires FlowEdge(cfg, s, i, t) && t.powerDown == NextPowerDown(s, i) && t.refCnt == NextRefCnt(cfg, s, i)
    requires InTime(cfg, s, cycles) && next <= cycles + Tick(s, t)
    ensures InTime(cfg, t, next)
  {
    VisitTimeFalls(cfg, s, i, t);
  }

  predicate Reloads(s: Registers, i: Inputs) { s.state.RRef? || Aborts(s, i) }

  lemma StepStaysInTime(cfg: Config, s: Registers, i: Inputs, cycles: int, next: int)
    requires cfg.Valid() && cfg.refreshUrgent > 0 && Inv(cfg, s) && !i.reset && i.ready && InTime(cfg, s, cycles)
    requires next <= if Reloads(s, i) then 0
                     else cycles + Tick(s, Step(cfg, s, i)) - if Detours(cfg, s, i) then Detour(cfg) else 0
    ensures InTime(cfg, Step(cfg, s, i), next)
  {
    var t := Step(cfg, s, i);
    StepEdges(cfg, s, i);
    if Reloads(s, i) {
      StepKeepsInv(cfg, s, i);
      ReloadRefills(cfg, s, i, t);
      ReloadedIsInTime(cfg, t, next);
    } else if !Awake(s) {
      VisitStaysInTime(cfg, s, i, t, cycles, next);
    } else if Enters(cfg, s, i) {
      EntryStaysInTime(cfg, s, i, t, cycles, next);
    } else {
      AwakeStaysInTime(cfg, s, i, cycles, next);
    }
  }

  // ---------------------------------------------------------------- not before the threshold

  /** What the monitor's count must have reached since the reload. Power-down ends in a refresh that is due. */
  predicate NotBefore(cfg: Config, s: Registers, cycles: int) {
    match s.state
    case RPre => cycles >= cfg.refreshInit - cfg.refreshUrgent + 3 - s.cnt
    case RNop => cycles >= cfg.refreshInit - cfg.refreshUrgent + 11 - s.cnt
    case RRef => cycles >= cfg.refreshInit - cfg.refreshUrgent + 12
    case PdIdle => true
    case PdExitWait => true
    case _ => cycles >= cfg.refreshInit - s.refCnt
  }

  lemma RefreshNotBefore(cfg: Config, s: Registers, i: Inputs, t: Registers, cycles: int, next: int)
    requires PowerFits(s) && CountFits(cfg, s) && NotBefore(cfg, s, cycles) && i.ready
    requires s.state.Idle? || s.state.RPre? || s.state.RNop?
    requires FlowEdge(cfg, s, i, t) && t.refCnt == NextRefCnt(cfg, s, i) && next >= cycles + 1
    ensures NotBefore(cfg, t, next)
  {
  }

  lemma OtherNotBefore(cfg: Config, s: Registers, i: Inputs, t: Registers, cycles: int, next: int)
    requires PowerFits(s) && CommandFits(s) && NotBefore(cfg, s, cycles) && i.ready
    requires !s.state.Idle? && !s.state.RPre? && !s.state.RNop? && !Reloads(s, i) && !WakesUp(s)
    requires FlowEdge(cfg, s, i, t) && t.refCnt == NextRefCnt(cfg, s, i) && t.powerDown == NextPowerDown(s, i)
    requires next >= cycles + Tick(s, t)
    ensures NotBefore(cfg, t, next)
  {
    OtherFlow(cfg, s, i, t);
  }

  lemma OtherFlow(cfg: Config, s: Registers, i: Inputs, t: Registers)
    requires PowerFits(s) && CommandFits(s) && t.state == NextState(cfg, s, i) && t.powerDown == NextPowerDown(s, i)
    requires !s.state.Idle? && !s.state.RPre? && !s.state.RNop? && !Reloads(s, i) && !WakesUp(s)
    ensures !t.state.RPre? && !t.state.RNop? && !t.state.RRef?
    ensures t.powerDown ==> t.state.PdIdle?
    ensures s.state.PdIdle? || s.state.PdExitWait? ==> t.state.PdIdle? || t.state.PdExitWait?
  {
    EdgeFollowsArrow(cfg, s, i, t);
    OtherArrows(s.state, t.state);
    PowerDownFlow(cfg, s, i, t);
  }

  lemma OtherArrows(a: State, b: State)
    requires Arrow(a, b) && a != Idle && a != RPre && a != RNop && a != RRef
    ensures b != RPre && b != RNop && b != RRef
  {
  }

  lemma PowerDownFlow(cfg: Config, s: Registers, i: Inputs, t: Registers)
    requires PowerFits(s) && t.state == NextState(cfg, s, i) && t.powerDown == NextPowerDown(s, i)
    ensures t.powerDown ==> t.state.PdIdle?
    ensures (s.state.PdIdle? || s.state.PdExitWait?) && !WakesUp(s) ==> t.state.PdIdle? || t.state.PdExitWait?
  {
  }

  lemma StepNotBefore(cfg: Config, s: Registers, i: Inputs, cycles: int, next: int)
    requires cfg.Valid() && Inv(cfg, s) && !i.reset && i.ready
    requires if Reloads(s, i) then next >= 0
             else !WakesUp(s) && NotBefore(cfg, s, cycles) && next >= cycles + Tick(s, Step(cfg, s, i))
    ensures NotBefore(cfg, Step(cfg, s, i), next)
  {
    var t := Step(cfg, s, i);
    StepEdges(cfg, s, i);
    if Reloads(s, i) {
      ReloadRefills(cfg, s, i, t);
      ReloadFlow(cfg, s, i, t);
    } else if s.state.Idle? || s.state.RPre? || s.state.RNop? {
      RefreshNotBefore(cfg, s, i, t, cycles, next);
    } else {
      OtherNotBefore(cfg, s, i, t, cycles, next);
    }
  }

  lemma ReloadFlow(cfg: Config, s: Registers, i: Inputs, t: Registers)
    requires CountFits(cfg, s) && t.state == NextState(cfg, s, i) && Reloads(s, i)
    ensures t.state.Idle? || t.state.RIdl?
  {
  }

  // ---------------------------------------------------------------- whole runs

  /**
   * The monitor has sampled the pins of the current cycle. `base` is its count when the refresh counter was
   * last reloaded: zero after a refresh, the count so far after an entry called off. Since then there were
   * `detours`, and `woken` tells whether a low-power mode was left.
   */
  datatype Bench = Bench(core: Core.State, monitor: Monitor, base: int, detours: nat, woken: bool)

  /** Cycles since the last refresh; before the first one the monitor starts a cycle ahead of the engine. */
  function Elapsed(m: Monitor): int { if m.seen then m.cycles else m.cycles - 1 }

  function Watch(limits: Limits, m: Monitor, c: Core.State): Monitor { Observe(limits, m, c.init.ready, Core.Pads(c)) }

  function BenchStep(cfg: Core.Config, limits: Limits, b: Bench, i: Core.Inputs): Bench {
    var s := b.core.engine;
    var wires := Core.EngineInputs(b.core, i);
    var c := Core.Step(cfg, b.core, i);
    var m := Watch(limits, b.monitor, c);
    if i.reset || s.state.RRef? then Bench(c, m, 0, 0, false)
    else if Aborts(s, wires) then Bench(c, m, Elapsed(m), 0, false)
    else Bench(c, m, b.base, b.detours + (if Detours(cfg.engine, s, wires) then 1 else 0), b.woken || WakesUp(s))
  }

  predicate BenchReset(cfg: Core.Config, b: Bench) {
    Core.IsReset(cfg, b.core) && b.monitor == RESET && b.base == 0 && b.detours == 0 && !b.woken
  }

  /** The states of a run from reset under these inputs. */
  predicate IsRun(cfg: Core.Config, limits: Limits, trace: seq<Bench>, inputs: seq<Core.Inputs>) {
    && |trace| == |inputs| + 1 && BenchReset(cfg, trace[0])
    && forall n: nat {:trigger BenchStep(cfg, limits, trace[n], inputs[n])} :: n < |inputs| ==>
      trace[n + 1] == BenchStep(cfg, limits, trace[n], inputs[n])
  }

  /** The monitor's count since the last reload, with every detour deducted. */
  function Since(cfg: Config, b: Bench): int { Elapsed(b.monitor) - b.base - b.detours * Detour(cfg) }

  predicate Early(cfg: Config, limits: Limits, b: Bench) {
    && (b.monitor.seen ==> 0 <= b.monitor.cycles)
    && (b.monitor.seen && !b.woken && b.monitor.cycles < limits.max ==>
         NotBefore(cfg, b.core.engine, b.monitor.cycles - b.base))
  }

  predicate StateFits(cfg: Core.Config, limits: Limits, b: Bench) {
    && Core.Fits(cfg, b.core)
    && (!b.core.init.ready ==> b.monitor == RESET && b.base == 0 && b.detours == 0 && !b.woken)
    && (cfg.engine.refreshUrgent > 0 ==> InTime(cfg.engine, b.core.engine, Since(cfg.engine, b)))
    && Early(cfg.engine, limits, b)
  }

  lemma RestingFits(cfg: Core.Config, limits: Limits, b: Bench)
    requires cfg.Valid() && Core.Fits(cfg, b.core) && Core.Waiting(cfg, b.core.engine)
    requires b.monitor.cycles <= 1 && !b.monitor.seen && b.base == 0 && b.detours == 0 && !b.woken
    requires !b.core.init.ready ==> b.monitor == RESET
    ensures StateFits(cfg, limits, b)
  {
    ReloadedIsInTime(cfg.engine, b.core.engine, Elapsed(b.monitor));
  }

  lemma RestingStepFits(cfg: Core.Config, limits: Limits, b: Bench, i: Core.Inputs)
    requires cfg.Valid() && StateFits(cfg, limits, b) && (i.reset || !b.core.init.ready)
    ensures StateFits(cfg, limits, BenchStep(cfg, limits, b, i))
  {
    var n := BenchStep(cfg, limits, b, i);
    Core.StepFits(cfg, b.core, i);
    StaysWaiting(cfg, b.core, i);
    RestingFits(cfg, limits, n);
  }

  lemma StaysWaiting(cfg: Core.Config, c: Core.State, i: Core.Inputs)
    requires Core.Fits(cfg, c) && (i.reset || !c.init.ready)
    ensures Core.Waiting(cfg, Core.Step(cfg, c, i).engine)
  {
    if i.reset {
      assert Core.IsReset(cfg, Core.Step(cfg, c, i));
    } else {
      Core.StepKeepsWaiting(cfg, c, i);
    }
  }

  /** What an edge of a ready engine does to the monitor and to the account kept beside it. */
  predicate Accounts(cfg: Config, limits: Limits, b: Bench, i: Inputs, n: Bench) {
    var s := b.core.engine;
    && n.monitor == Count(limits, b.monitor, s.state.RRef?, Tick(s, n.core.engine))
    && n.base == (if s.state.RRef? then 0 else if Aborts(s, i) then Elapsed(n.monitor) else b.base)
    && n.detours == (if Reloads(s, i) then 0 else b.detours + if Detours(cfg, s, i) then 1 else 0)
    && n.woken == (!Reloads(s, i) && (b.woken || WakesUp(s)))
  }

  function Count(limits: Limits, m: Monitor, refresh: bool, tick: int): Monitor {
    if refresh then Monitor(0, true) else if m.cycles < limits.max * 4 then m.(cycles := m.cycles + tick) else m
  }

  lemma PinsCount(cfg: Config, limits: Limits, m: Monitor, s: Registers, i: Inputs)
    requires Inv(cfg, s) && !i.reset
    ensures var t := Step(cfg, s, i); Observe(limits, m, true, EnginePins(t)) == Count(limits, m, s.state.RRef?, Tick(s, t))
  {
    Timing.PinsShowCommand(cfg, s, i);
    StepEdges(cfg, s, i);
  }

  lemma StepAccounts(cfg: Core.Config, limits: Limits, b: Bench, i: Core.Inputs)
    requires cfg.Valid() && Core.Fits(cfg, b.core) && b.core.init.ready && !i.reset
    ensures Accounts(cfg.engine, limits, b, Core.EngineInputs(b.core, i), BenchStep(cfg, limits, b, i))
  {
    Core.ReadyStays(cfg, b.core, i);
    PinsCount(cfg.engine, limits, b.monitor, b.core.engine, Core.EngineInputs(b.core, i));
  }

  lemma SinceMoves(cfg: Config, limits: Limits, b: Bench, i: Inputs, n: Bench)
    requires Accounts(cfg, limits, b, i, n)
    ensures Since(cfg, n) <=
            if Reloads(b.core.engine, i) then 0
            else Since(cfg, b) + Tick(b.core.engine, n.core.engine) - if Detours(cfg, b.core.engine, i) then Detour(cfg) else 0
  {
    if Detours(cfg, b.core.engine, i) && !Reloads(b.core.engine, i) {
      assert (b.detours + 1) * Detour(cfg) == b.detours * Detour(cfg) + Detour(cfg);
    }
  }

  lemma AccountInTime(cfg: Config, limits: Limits, b: Bench, i: Inputs, n: Bench)
    requires cfg.Valid() && cfg.refreshUrgent > 0 && Inv(cfg, b.core.engine) && !i.reset && i.ready
    requires Accounts(cfg, limits, b, i, n) && n.core.engine == Step(cfg, b.core.engine, i)
    requires InTime(cfg, b.core.engine, Since(cfg, b))
    ensures InTime(cfg, n.core.engine, Since(cfg, n))
  {
    SinceMoves(cfg, limits, b, i, n);
    StepStaysInTime(cfg, b.core.engine, i, Since(cfg, b), Since(cfg, n));
  }

  lemma CountMoves(cfg: Config, limits: Limits, b: Bench, i: Inputs, n: Bench)
    requires Accounts(cfg, limits, b, i, n) && n.monitor.seen && (b.monitor.seen ==> 0 <= b.monitor.cycles)
    ensures 0 <= n.monitor.cycles || !b.monitor.seen
    ensures b.core.engine.state.RRef? ==> n.monitor == Monitor(0, true)
    ensures !b.core.engine.state.RRef? ==> b.monitor.seen && n.monitor.cycles >= b.monitor.cycles
    ensures !b.core.engine.state.RRef? && b.monitor.seen && b.monitor.cycles < limits.max ==>
              n.monitor.cycles == b.monitor.cycles + Tick(b.core.engine, n.core.engine)
  {
  }

  lemma AccountNotBefore(cfg: Config, limits: Limits, b: Bench, i: Inputs, n: Bench)
    requires cfg.Valid() && Inv(cfg, b.core.engine) && !i.reset && i.ready && Early(cfg, limits, b)
    requires Accounts(cfg, limits, b, i, n) && n.core.engine == Step(cfg, b.core.engine, i)
    ensures Early(cfg, limits, n)
  {
    if n.monitor.seen {
      CountMoves(cfg, limits, b, i, n);
      if !n.woken && n.monitor.cycles < limits.max {
        StepNotBefore(cfg, b.core.engine, i, b.monitor.cycles - b.base, n.monitor.cycles - n.base);
      }
    }
  }

  lemma StepStateFits(cfg: Core.Config, limits: Limits, b: Bench, i: Core.Inputs)
    requires cfg.Valid() && StateFits(cfg, limits, b)
    ensures StateFits(cfg, limits, BenchStep(cfg, limits, b, i))
  {
    if i.reset || !b.core.init.ready {
      RestingStepFits(cfg, limits, b, i);
    } else {
      Core.StepFits(cfg, b.core, i);
      Core.ReadyStays(cfg, b.core, i);
      StepAccounts(cfg, limits, b, i);
      AccountNotBefore(cfg.engine, limits, b, Core.EngineInputs(b.core, i), BenchStep(cfg, limits, b, i));
      if cfg.engine.refreshUrgent > 0 {
        AccountInTime(cfg.engine, limits, b, Core.EngineInputs(b.core, i), BenchStep(cfg, limits, b, i));
      }
    }
  }

  lemma NextFits(cfg: Core.Config, limits: Limits, trace: seq<Bench>, inputs: seq<Core.Inputs>, n: nat)
    requires cfg.Valid() && IsRun(cfg, limits, trace, inputs) && n < |inputs| && StateFits(cfg, limits, trace[n])
    ensures StateFits(cfg, limits, trace[n + 1])
  {
    assert trace[n + 1] == BenchStep(cfg, limits, trace[n], inputs[n]);
    StepStateFits(cfg, limits, trace[n], inputs[n]);
  }

  lemma StartFits(cfg: Core.Config, limits: Limits, b: Bench)
    requires cfg.Valid() && BenchReset(cfg, b)
    ensures StateFits(cfg, limits, b)
  {
    Core.ResetFits(cfg, b.core);
    RestingFits(cfg, limits, b);
  }

  lemma {:induction false} RunKeepsFits(cfg: Core.Config, limits: Limits, trace: seq<Bench>, inputs: seq<Core.Inputs>, n: nat)
    requires cfg.Valid() && IsRun(cfg, limits, trace, inputs) && n < |trace| && StateFits(cfg, limits, trace[0])
    ensures StateFits(cfg, limits, trace[n])
  {
    if n > 0 {
      RunKeepsFits(cfg, limits, trace, inputs, n - 1);
      NextFits(cfg, limits, trace, inputs, n - 1);
    }
  }

  lemma RunFits(cfg: Core.Config, limits: Limits, trace: seq<Bench>, inputs: seq<Core.Inputs>, n: nat)
    requires cfg.Valid() && IsRun(cfg, limits, trace, inputs) && n < |trace|
    ensures StateFits(cfg, limits, trace[n])
  {
    StartFits(cfg, limits, trace[0]);
    RunKeepsFits(cfg, limits, trace, inputs, n);
  }

  /** The latest count at which the next refresh can come. */
  function Latest(cfg: Config, b: Bench): int { b.base + Interval(cfg) + b.detours * Detour(cfg) }

  /** The earliest one, if no low-power mode was left since the last reload. */
  function Earliest(cfg: Config, b: Bench): int { b.base + cfg.refreshInit - cfg.refreshUrgent + REFRESH_PATH }

  /**
   * On every run from reset, for any traffic and any use of the low-power modes: the count stays below
   * `Interval` from the last reload on, plus the detours made since.
   */
  lemma RefreshComesInTime(cfg: Core.Config, limits: Limits, trace: seq<Bench>, inputs: seq<Core.Inputs>, n: nat)
    requires cfg.Valid() && cfg.engine.refreshUrgent > 0 && IsRun(cfg, limits, trace, inputs) && n < |trace|
    ensures Elapsed(trace[n].monitor) < Latest(cfg.engine, trace[n])
  {
    RunFits(cfg, limits, trace, inputs, n);
    RefreshTimeBounded(cfg.engine, trace[n].core.engine);
  }

  /** No refresh is late that the count at the last reload and the detours since then leave room for. */
  lemma NeverTooLate(cfg: Core.Config, limits: Limits, trace: seq<Bench>, inputs: seq<Core.Inputs>, n: nat)
    requires cfg.Valid() && cfg.engine.refreshUrgent > 0 && IsRun(cfg, limits, trace, inputs) && n < |inputs|
    requires Latest(cfg.engine, trace[n]) <= limits.max
    ensures var c := trace[n + 1].core; !TooLate(limits, trace[n].monitor, c.init.ready, Core.Pads(c))
  {
    RefreshComesInTime(cfg, limits, trace, inputs, n);
  }

  /**
   * No refresh comes sooner than the threshold lets it, counted from the last reload, unless a low-power mode
   * was left since. So after a reload that came too late the next refresh is late, whatever the traffic.
   */
  lemma LateReloadLateRefresh(cfg: Core.Config, limits: Limits, trace: seq<Bench>, inputs: seq<Core.Inputs>, n: nat)
    requires cfg.Valid() && IsRun(cfg, limits, trace, inputs) && n < |inputs| && !inputs[n].reset
    requires trace[n].core.engine.state.RRef? && trace[n].monitor.seen && !trace[n].woken
    ensures var c := trace[n + 1].core;
      && IsRefresh(Core.Pads(c))
      && trace[n].monitor.cycles >= Min(limits.max, Earliest(cfg.engine, trace[n]))
      && (Earliest(cfg.engine, trace[n]) >= limits.max ==> TooLate(limits, trace[n].monitor, c.init.ready, Core.Pads(c)))
  {
    RunFits(cfg, limits, trace, inputs, n);
    RefreshIsNotEarly(cfg, limits, trace[n], inputs[n]);
    assert trace[n + 1] == BenchStep(cfg, limits, trace[n], inputs[n]);
  }

  lemma RefreshIsNotEarly(cfg: Core.Config, limits: Limits, b: Bench, i: Core.Inputs)
    requires cfg.Valid() && StateFits(cfg, limits, b) && !i.reset
    requires b.core.engine.state.RRef? && b.monitor.seen && !b.woken
    ensures var c := Core.Step(cfg, b.core, i);
      && IsRefresh(Core.Pads(c))
      && b.monitor.cycles >= Min(limits.max, Earliest(cfg.engine, b))
      && (Earliest(cfg.engine, b) >= limits.max ==> TooLate(limits, b.monitor, c.init.ready, Core.Pads(c)))
  {
    RefreshShows(cfg, b.core, i);
  }

  lemma RefreshShows(cfg: Core.Config, c: Core.State, i: Core.Inputs)
    requires cfg.Valid() && Core.Fits(cfg, c) && c.engine.state.RRef? && !i.reset
    ensures c.init.ready && Core.Step(cfg, c, i).init.ready && IsRefresh(Core.Pads(Core.Step(cfg, c, i)))
  {
    Core.ReadyStays(cfg, c, i);
    Timing.PinsShowCommand(cfg.engine, c.engine, Core.EngineInputs(c, i));
  }

  function Min(x: int, y: int): int { if x < y then x else y }

  /** With the default parameters the bound is 2589 cycles, and the strict limit of 3900 has room for 11 detours. */
  lemma DefaultInterval()
    ensures DefaultConfig().refreshUrgent > 0 && Interval(DefaultConfig()) == 2589 && Detour(DefaultConfig()) == 113
    ensures Interval(DefaultConfig()) + 11 * Detour(DefaultConfig()) <= STRICT.max
  {
  }
}
