/**
 * Every accepted command is served within a fixed time, as long as the host asks for nothing else; and
 * exactly if a refresh leaves room for anything but the next refresh.
 */
module Service {
  import opened DdrBus
  import opened Fifo
  import opened ProtocolEngine
  import opened EngineInvariant
  import opened Progress
  import Controller
  import Order = CommandOrder
  import Core

  /** After a refresh the counter is still above the threshold when the engine is back in IDLE. */
  predicate Fair(cfg: Config) { cfg.refreshUrgent + RFC_WAIT + 1 <= cfg.refreshInit || cfg.refreshUrgent == 0 }

  /** The refresh counter during the wait that follows a refresh. */
  predicate RefreshCounted(cfg: Config, s: Registers) {
    s.state.RIdl? ==>
      s.refCnt == if cfg.refreshInit > RFC_WAIT - s.cnt then cfg.refreshInit - (RFC_WAIT - s.cnt) else 0
  }

  lemma OnlyRefreshWaits(a: State, b: State)
    requires Arrow(a, b) && b == RIdl
    ensures a == RRef || a == RIdl
  {
  }

  lemma RefreshFlow(cfg: Config, s: Registers, i: Inputs, t: Registers)
    requires CommandFits(s) && t.state == NextState(cfg, s, i) && t.state.RIdl?
    ensures (s.state.RRef? && s.cnt == 1) || (s.state.RIdl? && s.cnt != 0)
  {
    EdgeFollowsArrow(cfg, s, i, t);
    OnlyRefreshWaits(s.state, t.state);
  }

  lemma EdgeKeepsRefreshCounted(cfg: Config, s: Registers, i: Inputs, t: Registers)
    requires cfg.Valid() && CommandFits(s) && CountFits(cfg, s) && PowerFits(s) && RefreshCounted(cfg, s) && i.ready
    requires FlowEdge(cfg, s, i, t) && t.refCnt == NextRefCnt(cfg, s, i)
    ensures RefreshCounted(cfg, t)
  {
    if t.state.RIdl? {
      RefreshFlow(cfg, s, i, t);
    }
  }

  // ---------------------------------------------------------------- waiting for service

  /** The host offers commands and asks for nothing else; any low-power mode is called off. */
  predicate Calm(s: Registers, i: Inputs) {
    && !i.reset && i.ready && !i.selfRefreshReq && !i.powerDownReq && i.selfRefreshExit && i.powerDownExit
    && (s.state.Idle? ==> i.cmdAvailable)
  }

  const OPENING_WAIT := 8
  const REFRESH_WAIT := 112

  /** Clock edges left until a command is latched, at the most. */
  function ServiceWait(cfg: Config, s: Registers): int {
    match s.state
    case GetCmd => GapWait(s)
    case Idle =>
      OPENING_WAIT + (if s.autoReq then 2 else if s.refCnt < cfg.refreshUrgent then REFRESH_WAIT else 0)
    case RPre => Rank(cfg, s) + OPENING_WAIT
    case RNop => Rank(cfg, s) + OPENING_WAIT
    case RRef => Rank(cfg, s) + OPENING_WAIT
    case RIdl => Rank(cfg, s) + OPENING_WAIT
    case SrefPre => 1 + OPENING_WAIT
    case SrefTrp => 1 + OPENING_WAIT
    case SrefEnter => 1 + OPENING_WAIT
    case PdPre => 1 + OPENING_WAIT
    case PdTrp => 1 + OPENING_WAIT
    case _ => IdleRank(cfg, s) + REFRESH_WAIT + OPENING_WAIT
  }

  lemma IdleWaitFalls(cfg: Config, s: Registers, i: Inputs, t: Registers)
    requires cfg.Valid() && CountFits(cfg, s) && TimersFit(cfg, s) && PowerFits(s)
    requires FlowEdge(cfg, s, i, t) && TimerEdge(cfg, s, i, t) && t.autoReq == NextAutoReq(cfg, s, i)
    requires Calm(s, i) && (s.state.Idle? || s.state.GetCmd?) && !Latches(s)
    ensures 0 <= ServiceWait(cfg, t) < ServiceWait(cfg, s)
  {
  }

  lemma RefreshWaitFalls(cfg: Config, s: Registers, i: Inputs, t: Registers)
    requires cfg.Valid() && Fair(cfg) && CountFits(cfg, s) && TimersFit(cfg, s) && PowerFits(s) && RefreshCounted(cfg, s)
    requires FlowEdge(cfg, s, i, t) && t.refCnt == NextRefCnt(cfg, s, i) && t.autoReq == NextAutoReq(cfg, s, i)
    requires Calm(s, i) && PhaseOf(s.state) == Refreshing
    ensures 0 <= ServiceWait(cfg, t) < ServiceWait(cfg, s)
  {
  }

  /** A mode that is called off reloads the refresh counter. */
  lemma EntryWaitFalls(cfg: Config, s: Registers, i: Inputs, t: Registers)
    requires cfg.Valid() && Fair(cfg) && FlowEdge(cfg, s, i, t) && t.refCnt == NextRefCnt(cfg, s, i) && t.autoReq == NextAutoReq(cfg, s, i)
    requires Calm(s, i) && EntersMode(s.state)
    ensures 0 <= ServiceWait(cfg, t) < ServiceWait(cfg, s)
  {
  }

  predicate EntersMode(st: State) {
    st.SrefPre? || st.SrefTrp? || st.SrefEnter? || st.PdPre? || st.PdTrp?
  }

  lemma OtherWaitFalls(cfg: Config, s: Registers, i: Inputs, t: Registers)
    requires CommandFits(s) && FlowEdge(cfg, s, i, t) && t.autoReq == NextAutoReq(cfg, s, i)
    requires 0 <= IdleRank(cfg, t) < IdleRank(cfg, s)
    requires !s.state.Idle? && !s.state.GetCmd? && PhaseOf(s.state) != Refreshing && !EntersMode(s.state)
    ensures 0 <= ServiceWait(cfg, t) < ServiceWait(cfg, s)
  {
    OtherFlow(cfg, s, i, t);
  }

  lemma OtherFlow(cfg: Config, s: Registers, i: Inputs, t: Registers)
    requires CommandFits(s) && FlowEdge(cfg, s, i, t) && t.autoReq == NextAutoReq(cfg, s, i)
    requires !s.state.Idle? && !s.state.GetCmd? && PhaseOf(s.state) != Refreshing && !EntersMode(s.state)
    ensures !t.state.GetCmd? && PhaseOf(t.state) != Refreshing && !EntersMode(t.state) && !t.autoReq
  {
    EdgeFollowsArrow(cfg, s, i, t);
    OtherArrows(s.state, t.state);
  }

  lemma OtherArrows(a: State, b: State)
    requires Arrow(a, b) && !a.Idle? && !a.GetCmd? && PhaseOf(a) != Refreshing && !EntersMode(a)
    ensures !b.GetCmd? && PhaseOf(b) != Refreshing && !EntersMode(b)
  {
    NoEntryArrow(a, b);
  }

  lemma NoEntryArrow(a: State, b: State)
    requires Arrow(a, b) && !a.Idle? && !EntersMode(a)
    ensures !b.GetCmd? || a.GetCmd?
    ensures !EntersMode(b)
  {
  }

  lemma StepWaitFalls(cfg: Config, s: Registers, i: Inputs)
    requires cfg.Valid() && Fair(cfg) && Inv(cfg, s) && RefreshCounted(cfg, s) && Calm(s, i) && !Latches(s)
    ensures 0 <= ServiceWait(cfg, Step(cfg, s, i)) < ServiceWait(cfg, s)
  {
    var t := Step(cfg, s, i);
    StepEdges(cfg, s, i);
    if s.state.Idle? || s.state.GetCmd? {
      IdleWaitFalls(cfg, s, i, t);
    } else if PhaseOf(s.state) == Refreshing {
      RefreshWaitFalls(cfg, s, i, t);
    } else if EntersMode(s.state) {
      EntryWaitFalls(cfg, s, i, t);
    } else {
      StepIdleRankFalls(cfg, s, i);
      OtherWaitFalls(cfg, s, i, t);
    }
  }

  lemma WaitBounded(cfg: Config, s: Registers)
    requires cfg.Valid() && Inv(cfg, s)
    ensures 0 <= ServiceWait(cfg, s) <= BusyBound(cfg) + 120
  {
    RankBounded(cfg, s);
    IdleRankBounded(cfg, s);
  }

  lemma IdleRankBounded(cfg: Config, s: Registers)
    requires cfg.Valid() && Inv(cfg, s) && 0 <= Rank(cfg, s) <= BusyBound(cfg)
    ensures 0 <= IdleRank(cfg, s) <= BusyBound(cfg)
  {
  }

  // ---------------------------------------------------------------- runs of the controller

  /** A command is queued or on its way to the engine. */
  predicate HasWork(c: Controller.State) { c.commands.items != [] || c.core.engine.state.GetCmd? }

  predicate CalmHost(h: Controller.Host) {
    !h.reset && !h.selfRefreshReq && !h.powerDownReq && h.selfRefreshExit && h.powerDownExit
  }

  predicate Serving(cfg: Core.Config, b: Order.Bench) {
    Order.BenchFits(cfg, b) && RefreshCounted(cfg.engine, b.state.core.engine) && b.state.core.init.ready
  }

  /** The states of a run under these cycles. */
  predicate IsRun(cfg: Core.Config, trace: seq<Order.Bench>, cycles: seq<Controller.Cycle>) {
    && |trace| == |cycles| + 1
    && forall n: nat {:trigger Order.BenchStep(cfg, trace[n], cycles[n])} :: n < |cycles| ==>
      trace[n + 1] == Order.BenchStep(cfg, trace[n], cycles[n])
  }

  lemma StepServes(cfg: Core.Config, b: Order.Bench, cycle: Controller.Cycle) returns (n: Order.Bench)
    requires cfg.Valid() && Fair(cfg.engine) && Serving(cfg, b) && HasWork(b.state) && CalmHost(cycle.host)
    requires !Latches(b.state.core.engine)
    ensures n == Order.BenchStep(cfg, b, cycle) && Serving(cfg, n) && HasWork(n.state)
    ensures 0 <= ServiceWait(cfg.engine, n.state.core.engine) < ServiceWait(cfg.engine, b.state.core.engine)
  {
    n := Order.BenchStep(cfg, b, cycle);
    var s := b.state.core.engine;
    var wires := Controller.EngineWires(b.state, cycle.host);
    Order.StepFits(cfg, b, cycle);
    Order.StepQueues(cfg, b, cycle);
    Core.ReadyStays(cfg, b.state.core, Controller.CoreInputs(b.state, cycle.host));
    StepEdges(cfg.engine, s, wires);
    EdgeKeepsRefreshCounted(cfg.engine, s, wires, Step(cfg.engine, s, wires));
    StepWaitFalls(cfg.engine, s, wires);
    WorkStays(cfg.engine, b.state, cycle.host, n.state);
  }

  lemma WorkStays(cfg: Config, c: Controller.State, h: Controller.Host, d: Controller.State)
    requires HasWork(c) && Order.PopFits(c) && !Latches(c.core.engine)
    requires FlowEdge(cfg, c.core.engine, Controller.EngineWires(c, h), d.core.engine)
    requires d.commands == Clocked(Controller.COMMAND_DEPTH, c.commands, Controller.Accepts(c, h), h.request, c.core.engine.getCmd)
    ensures HasWork(d)
  {
  }

  lemma ServesNext(cfg: Core.Config, trace: seq<Order.Bench>, cycles: seq<Controller.Cycle>, n: nat)
    requires cfg.Valid() && Fair(cfg.engine) && IsRun(cfg, trace, cycles) && n < |cycles| && CalmHost(cycles[n].host)
    requires Serving(cfg, trace[n]) && HasWork(trace[n].state) && !Latches(trace[n].state.core.engine)
    ensures Serving(cfg, trace[n + 1]) && HasWork(trace[n + 1].state)
    ensures 0 <= ServiceWait(cfg.engine, trace[n + 1].state.core.engine) < ServiceWait(cfg.engine, trace[n].state.core.engine)
  {
    var next := StepServes(cfg, trace[n], cycles[n]);
    assert trace[n + 1] == Order.BenchStep(cfg, trace[n], cycles[n]);
  }

  lemma {:induction false} ServedWithinWait(cfg: Core.Config, trace: seq<Order.Bench>, cycles: seq<Controller.Cycle>, n: nat) returns (k: nat)
    requires cfg.Valid() && Fair(cfg.engine) && IsRun(cfg, trace, cycles) && n <= |cycles|
    requires Serving(cfg, trace[n]) && HasWork(trace[n].state)
    requires forall j :: 0 <= j < |cycles| ==> CalmHost(cycles[j].host)
    requires n + ServiceWait(cfg.engine, trace[n].state.core.engine) <= |cycles|
    ensures n <= k <= |cycles| && (k == n || k <= n + ServiceWait(cfg.engine, trace[n].state.core.engine))
    ensures Latches(trace[k].state.core.engine)
    decreases |cycles| - n
  {
    if Latches(trace[n].state.core.engine) {
      k := n;
    } else {
      SomeWait(cfg.engine, trace[n].state.core.engine);
      ServesNext(cfg, trace, cycles, n);
      k := ServedWithinWait(cfg, trace, cycles, n + 1);
    }
  }

  lemma SomeWait(cfg: Config, s: Registers)
    requires cfg.Valid() && Inv(cfg, s) && !Latches(s)
    ensures ServiceWait(cfg, s) > 0
  {
    RankBounded(cfg, s);
  }

  /** Every run from reset is fit to serve as soon as it is READY. */
  lemma {:induction false} RunCanServe(cfg: Core.Config, start: Controller.State, cycles: seq<Controller.Cycle>)
    requires cfg.Valid() && Controller.IsReset(cfg, start)
    ensures var b := Order.BenchRun(cfg, start, cycles);
      && Order.BenchFits(cfg, b) && RefreshCounted(cfg.engine, b.state.core.engine)
      && (b.state.core.init.ready ==> Serving(cfg, b))
  {
    if cycles == [] {
      Order.ResetFits(cfg, start);
    } else {
      var b := Order.BenchRun(cfg, start, cycles[..|cycles| - 1]);
      var cycle := cycles[|cycles| - 1];
      RunCanServe(cfg, start, cycles[..|cycles| - 1]);
      Order.StepFits(cfg, b, cycle);
      StaysCounted(cfg, b, cycle);
    }
  }

  lemma StaysCounted(cfg: Core.Config, b: Order.Bench, cycle: Controller.Cycle)
    requires cfg.Valid() && Order.BenchFits(cfg, b) && RefreshCounted(cfg.engine, b.state.core.engine)
    ensures RefreshCounted(cfg.engine, Order.BenchStep(cfg, b, cycle).state.core.engine)
  {
    if !cycle.host.reset {
      var s := b.state.core.engine;
      var wires := Controller.EngineWires(b.state, cycle.host);
      Order.StepQueues(cfg, b, cycle);
      if b.state.core.init.ready {
        StepEdges(cfg.engine, s, wires);
        EdgeKeepsRefreshCounted(cfg.engine, s, wires, Step(cfg.engine, s, wires));
      } else {
        Core.StepKeepsWaiting(cfg, b.state.core, Controller.CoreInputs(b.state, cycle.host));
      }
    }
  }

  /**
   * Whatever state a run has reached: while a command is waiting and the host stays calm, the next command
   * is latched within a bound that is 396 cycles with the default parameters.
   */
  lemma ServedInTime(cfg: Core.Config, trace: seq<Order.Bench>, cycles: seq<Controller.Cycle>) returns (k: nat)
    requires cfg.Valid() && Fair(cfg.engine) && IsRun(cfg, trace, cycles)
    requires Serving(cfg, trace[0]) && HasWork(trace[0].state)
    requires forall j :: 0 <= j < |cycles| ==> CalmHost(cycles[j].host)
    requires |cycles| >= BusyBound(cfg.engine) + 120
    ensures k <= |cycles| && k <= BusyBound(cfg.engine) + 120 && Latches(trace[k].state.core.engine)
  {
    WaitBounded(cfg.engine, trace[0].state.core.engine);
    k := ServedWithinWait(cfg, trace, cycles, 0);
  }

  lemma DefaultsAreFair()
    ensures Fair(DefaultConfig()) && BusyBound(DefaultConfig()) + 120 == 396
  {
  }

  // ---------------------------------------------------------------- the other half

  /** Refreshing, or back in IDLE with the next refresh already due. */
  predicate OnlyRefreshes(cfg: Config, s: Registers) {
    RefreshCounted(cfg, s) && (PhaseOf(s.state) == Refreshing || (s.state.Idle? && s.refCnt < cfg.refreshUrgent && !s.autoReq))
  }

  lemma StepOnlyRefreshes(cfg: Config, s: Registers, i: Inputs, t: Registers)
    requires cfg.Valid() && !Fair(cfg) && Inv(cfg, s) && OnlyRefreshes(cfg, s)
    requires i.ready && !i.selfRefreshReq
    requires FlowEdge(cfg, s, i, t) && t.refCnt == NextRefCnt(cfg, s, i) && t.autoReq == NextAutoReq(cfg, s, i)
    ensures OnlyRefreshes(cfg, t) && !Latches(s)
  {
  }

  /**
   * In an unfair configuration the first refresh is followed by refreshes for ever: no command is served, as
   * long as nobody asks for self-refresh.
   */
  lemma {:induction false} UnfairNeverServes(cfg: Config, s: Registers, inputs: seq<Inputs>)
    requires cfg.Valid() && !Fair(cfg) && Inv(cfg, s) && OnlyRefreshes(cfg, s)
    requires forall k :: 0 <= k < |inputs| ==> !inputs[k].reset && inputs[k].ready && !inputs[k].selfRefreshReq
    ensures OnlyRefreshes(cfg, Progress.Run(cfg, s, inputs)) && !Latches(Progress.Run(cfg, s, inputs))
    decreases |inputs|
  {
    if inputs != [] {
      StepEdges(cfg, s, inputs[0]);
      StepOnlyRefreshes(cfg, s, inputs[0], Step(cfg, s, inputs[0]));
      StepKeepsInv(cfg, s, inputs[0]);
      UnfairNeverServes(cfg, Step(cfg, s, inputs[0]), inputs[1..]);
    }
  }

  lemma RequestStarts(cfg: Config, s: Registers, i: Inputs)
    requires s.state.Idle? && !s.selfRefresh && !s.powerDown && !i.reset && i.ready && i.selfRefreshReq
    ensures var t := Step(cfg, s, i); t.state.SrefPre? && !t.selfRefresh && !t.powerDown
  {
    StepEdges(cfg, s, i);
  }

  lemma AbortReloads(cfg: Config, t: Registers, j: Inputs)
    requires t.state.SrefPre? && !t.selfRefresh && !t.powerDown && !j.reset && j.selfRefreshExit
    ensures var u := Step(cfg, t, j);
      u.state.Idle? && !u.selfRefresh && !u.powerDown && !u.autoReq && u.refCnt == cfg.refreshInit
  {
    StepEdges(cfg, t, j);
  }

  /** A request called off reloads the refresh counter, and a waiting command gets through, fair or not. */
  lemma CalledOffRequestServes(cfg: Config, s: Registers, i: Inputs, j: Inputs, k: Inputs)
    requires cfg.refreshInit >= cfg.refreshUrgent && s.state.Idle? && !s.selfRefresh && !s.powerDown
    requires !i.reset && i.ready && i.selfRefreshReq && !j.reset && j.selfRefreshExit
    requires !k.reset && k.ready && k.cmdAvailable && !k.selfRefreshReq && !k.powerDownReq
    ensures Step(cfg, Step(cfg, Step(cfg, s, i), j), k).state.GetCmd?
  {
    var t := Step(cfg, s, i);
    RequestStarts(cfg, s, i);
    AbortReloads(cfg, t, j);
    StepEdges(cfg, Step(cfg, t, j), k);
  }
}
