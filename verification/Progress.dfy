/** Every command and every maintenance sequence ends: a ranking function over the engine's states. */
module Progress {
  import opened ProtocolEngine
  import opened EngineInvariant

  /** IDLE, or waiting in a low-power mode for the host to ask for its end. */
  predicate Settled(s: Registers) { s.state.Idle? || s.state.SrefIdle? || s.state.PdIdle? }

  /** Cycles of `n` more write sub-bursts of a block write of this size. */
  function Bursts(sz: Size, n: int): int {
    if sz == 0 then 40 * n else if sz == 1 then 48 * n else if sz == 2 then 56 * n else 64 * n
  }

  /** Cycles from leaving the tRCD wait to IDLE, per target. */
  function ColumnTime(cfg: Config, target: State, sz: Size): int {
    match target
    case IssueRead => cfg.readWait + 11
    case BlrIssue => cfg.readWait + 3
    case IssueWrite => 40
    case _ => Bursts(sz, sz + 1)
  }

  function GapWait(s: Registers): int {
    if s.haveAct && s.actGap < ACT_GAP_MIN - s.cnt then ACT_GAP_MIN - s.actGap else s.cnt
  }

  const COMMAND_BOUND := 269
  const DLL_OVERHEAD := 17

  /** An upper bound on the clock edges left until the engine settles. */
  function Rank(cfg: Config, s: Registers): int {
    match s.state
    case GetCmd => GapWait(s) + 1 + COMMAND_BOUND
    case Activate => GapWait(s) + 7 + Bursts(3, 4)
    case BlrAct => s.cnt + 5 + cfg.readWait + 3
    case BlwAct => s.cnt + 5 + Bursts(s.sz, s.sz + 1)
    case WaitTrcd => s.cnt + 1 + ColumnTime(cfg, s.next, s.sz)
    case IssueRead => cfg.readWait + 11
    case ScRead => s.cnt + 10
    case ScrEnd => s.cnt + 1
    case BlrIssue => cfg.readWait + 3
    case BlrRead => s.cnt + 2
    case ScrNlsn => 1
    case IssueWrite => 40
    case ScWrite => s.cnt + 27
    case BlwIssue => Bursts(s.sz, s.sz - s.blk + 1)
    case BlwWrite => s.cnt + 1 + BlockDataWait(s.sz) + 19 + Bursts(s.sz, s.sz - s.blk)
    case ScwrData => s.cnt + 19 + if s.fromBlw then Bursts(s.sz, s.sz - s.blk) else 0
    case ScwrEnd => s.cnt + 1 + if s.fromBlw then Bursts(s.sz, s.sz - s.blk) else 0
    case RPre => s.cnt + 110
    case RNop => s.cnt + 102
    case RRef => 101
    case RIdl => s.cnt + 1
    case SrefPre => s.cnt + 11
    case SrefTrp => s.cnt + 3
    case SrefEnter => s.cnt + 1
    case SrefExitWait => s.cnt + 1
    case PdPre => s.cnt + 9
    case PdTrp => s.cnt + 1
    case PdExitWait => s.cnt + 1
    case DllPre => s.cnt + 16 + cfg.dllLock
    case DllTrp => s.cnt + 8 + cfg.dllLock
    case DllMrs => s.cnt + 6 + cfg.dllLock
    case DllTmrd => s.cnt + 2 + cfg.dllLock
    case DllTdllk => s.dllCnt + 1
    case _ => 0
  }

  datatype Phase = Opening | Reading | Writing | Refreshing | LowPower | Relocking

  function PhaseOf(st: State): Phase {
    match st
    case GetCmd => Opening
    case Activate => Opening
    case BlrAct => Opening
    case BlwAct => Opening
    case WaitTrcd => Opening
    case IssueRead => Reading
    case ScRead => Reading
    case ScrEnd => Reading
    case BlrIssue => Reading
    case BlrRead => Reading
    case ScrNlsn => Reading
    case IssueWrite => Writing
    case ScWrite => Writing
    case BlwIssue => Writing
    case BlwWrite => Writing
    case ScwrData => Writing
    case ScwrEnd => Writing
    case RPre => Refreshing
    case RNop => Refreshing
    case RRef => Refreshing
    case RIdl => Refreshing
    case DllPre => Relocking
    case DllTrp => Relocking
    case DllMrs => Relocking
    case DllTmrd => Relocking
    case DllTdllk => Relocking
    case _ => LowPower
  }

  lemma OpeningRankFalls(cfg: Config, s: Registers, i: Inputs, t: Registers)
    requires cfg.Valid() && CommandFits(s) && CountFits(cfg, s) && TimersFit(cfg, s)
    requires FlowEdge(cfg, s, i, t) && CommandEdge(s, i, t) && TimerEdge(cfg, s, i, t)
    requires PhaseOf(s.state) == Opening
    ensures 0 <= Rank(cfg, t) < Rank(cfg, s)
  {
  }

  lemma ReadRankFalls(cfg: Config, s: Registers, i: Inputs, t: Registers)
    requires cfg.Valid() && CommandFits(s) && CountFits(cfg, s) && TimersFit(cfg, s)
    requires FlowEdge(cfg, s, i, t) && CommandEdge(s, i, t) && TimerEdge(cfg, s, i, t)
    requires PhaseOf(s.state) == Reading
    ensures 0 <= Rank(cfg, t) < Rank(cfg, s)
  {
  }

  lemma WriteRankFalls(cfg: Config, s: Registers, i: Inputs, t: Registers)
    requires cfg.Valid() && CommandFits(s) && CountFits(cfg, s) && TimersFit(cfg, s)
    requires FlowEdge(cfg, s, i, t) && CommandEdge(s, i, t) && TimerEdge(cfg, s, i, t)
    requires PhaseOf(s.state) == Writing
    ensures 0 <= Rank(cfg, t) < Rank(cfg, s)
  {
  }

  lemma RefreshRankFalls(cfg: Config, s: Registers, i: Inputs, t: Registers)
    requires cfg.Valid() && CommandFits(s) && CountFits(cfg, s) && DllFits(cfg, s)
    requires FlowEdge(cfg, s, i, t) && t.dllCnt == NextDllCnt(cfg, s)
    requires PhaseOf(s.state) == Refreshing
    ensures 0 <= Rank(cfg, t) < Rank(cfg, s)
  {
  }

  lemma RelockRankFalls(cfg: Config, s: Registers, i: Inputs, t: Registers)
    requires cfg.Valid() && CommandFits(s) && CountFits(cfg, s) && DllFits(cfg, s)
    requires FlowEdge(cfg, s, i, t) && t.dllCnt == NextDllCnt(cfg, s)
    requires PhaseOf(s.state) == Relocking
    ensures 0 <= Rank(cfg, t) < Rank(cfg, s)
  {
  }

  lemma LowPowerRankFalls(cfg: Config, s: Registers, i: Inputs, t: Registers)
    requires cfg.Valid() && CommandFits(s) && CountFits(cfg, s) && DllFits(cfg, s)
    requires FlowEdge(cfg, s, i, t) && t.dllCnt == NextDllCnt(cfg, s)
    requires PhaseOf(s.state) == LowPower && !Settled(s)
    ensures 0 <= Rank(cfg, t) < Rank(cfg, s)
  {
  }

  /** Every edge that does not reset brings an unsettled engine closer to settling. */
  lemma StepRankFalls(cfg: Config, s: Registers, i: Inputs)
    requires cfg.Valid() && Inv(cfg, s) && !Settled(s) && !i.reset
    ensures 0 <= Rank(cfg, Step(cfg, s, i)) < Rank(cfg, s)
  {
    var t := Step(cfg, s, i);
    StepEdges(cfg, s, i);
    match PhaseOf(s.state) {
      case Opening => OpeningRankFalls(cfg, s, i, t);
      case Reading => ReadRankFalls(cfg, s, i, t);
      case Writing => WriteRankFalls(cfg, s, i, t);
      case Refreshing => RefreshRankFalls(cfg, s, i, t);
      case Relocking => RelockRankFalls(cfg, s, i, t);
      case LowPower => LowPowerRankFalls(cfg, s, i, t);
    }
  }

  // ---------------------------------------------------------------- bounds

  /** The longest stretch between two visits to IDLE that is not spent in a low-power mode. */
  function BusyBound(cfg: Config): int {
    if cfg.dllLock + DLL_OVERHEAD > COMMAND_BOUND + ACT_GAP_MIN + 1 then cfg.dllLock + DLL_OVERHEAD
    else COMMAND_BOUND + ACT_GAP_MIN + 1
  }

  lemma CommandRankBounded(cfg: Config, s: Registers)
    requires cfg.Valid() && CommandFits(s) && CountFits(cfg, s) && TimersFit(cfg, s)
    requires PhaseOf(s.state) == Opening || PhaseOf(s.state) == Reading
    ensures 0 < Rank(cfg, s) <= 276
  {
  }

  lemma WriteRankBounded(cfg: Config, s: Registers)
    requires cfg.Valid() && CommandFits(s) && CountFits(cfg, s) && PhaseOf(s.state) == Writing
    ensures 0 < Rank(cfg, s) <= 276
  {
  }

  lemma OtherRankBounded(cfg: Config, s: Registers)
    requires cfg.Valid() && CommandFits(s) && CountFits(cfg, s) && DllFits(cfg, s)
    requires PhaseOf(s.state) != Opening && PhaseOf(s.state) != Reading && PhaseOf(s.state) != Writing
    ensures 0 <= Rank(cfg, s) <= BusyBound(cfg) && (!Settled(s) ==> Rank(cfg, s) > 0)
    ensures PhaseOf(s.state) == Relocking ==> Rank(cfg, s) <= cfg.dllLock + DLL_OVERHEAD
  {
  }

  lemma RankBounded(cfg: Config, s: Registers)
    requires cfg.Valid() && Inv(cfg, s)
    ensures 0 <= Rank(cfg, s) <= BusyBound(cfg)
    ensures !Settled(s) ==> Rank(cfg, s) > 0
    ensures PhaseOf(s.state) in {Opening, Reading, Writing} ==> Rank(cfg, s) <= 276
    ensures PhaseOf(s.state) == Relocking ==> Rank(cfg, s) <= cfg.dllLock + DLL_OVERHEAD
  {
    if PhaseOf(s.state) == Opening || PhaseOf(s.state) == Reading {
      CommandRankBounded(cfg, s);
    } else if PhaseOf(s.state) == Writing {
      WriteRankBounded(cfg, s);
    } else {
      OtherRankBounded(cfg, s);
    }
  }

  // ---------------------------------------------------------------- runs

  function Run(cfg: Config, s: Registers, inputs: seq<Inputs>): Registers
    decreases |inputs|
  {
    if inputs == [] then s else Run(cfg, Step(cfg, s, inputs[0]), inputs[1..])
  }

  lemma {:induction false} RunAppend(cfg: Config, s: Registers, inputs: seq<Inputs>, i: Inputs)
    ensures Run(cfg, s, inputs + [i]) == Step(cfg, Run(cfg, s, inputs), i)
    decreases |inputs|
  {
    if inputs == [] {
      assert ([] + [i])[1..] == [];
    } else {
      RunAppend(cfg, Step(cfg, s, inputs[0]), inputs[1..], i);
      assert (inputs + [i])[1..] == inputs[1..] + [i];
    }
  }

  predicate NoReset(inputs: seq<Inputs>) { forall k :: 0 <= k < |inputs| ==> !inputs[k].reset }

  /** From every reachable state, whatever the inputs, the engine settles within its rank. */
  lemma {:induction false} SettlesWithinRank(cfg: Config, s: Registers, inputs: seq<Inputs>) returns (k: nat)
    requires cfg.Valid() && Inv(cfg, s) && NoReset(inputs) && |inputs| >= Rank(cfg, s)
    ensures k <= |inputs| && k <= Rank(cfg, s) <= BusyBound(cfg)
    ensures Settled(Run(cfg, s, inputs[..k]))
    decreases |inputs|
  {
    RankBounded(cfg, s);
    if Settled(s) {
      k := 0;
    } else {
      StepRankFalls(cfg, s, inputs[0]);
      StepKeepsInv(cfg, s, inputs[0]);
      var j := SettlesWithinRank(cfg, Step(cfg, s, inputs[0]), inputs[1..]);
      k := j + 1;
      assert inputs[..k][1..] == inputs[1..][..j];
    }
  }

  /** The host asks for the end of both low-power modes on every edge. */
  predicate ExitsRequested(inputs: seq<Inputs>) {
    forall k :: 0 <= k < |inputs| ==> inputs[k].selfRefreshExit && inputs[k].powerDownExit
  }

  /** Clock edges left until IDLE while the host keeps asking for the end of low power. */
  function IdleRank(cfg: Config, s: Registers): int {
    match s.state
    case SrefIdle => cfg.exitSelfRefresh + 2
    case PdIdle => cfg.exitPowerDown + 2
    case SrefPre => 1
    case SrefTrp => 1
    case SrefEnter => 1
    case PdPre => 1
    case PdTrp => 1
    case _ => Rank(cfg, s)
  }

  lemma StepIdleRankFalls(cfg: Config, s: Registers, i: Inputs)
    requires cfg.Valid() && Inv(cfg, s) && !s.state.Idle? && !i.reset && i.selfRefreshExit && i.powerDownExit
    ensures 0 <= IdleRank(cfg, Step(cfg, s, i)) < IdleRank(cfg, s)
  {
    StepEdges(cfg, s, i);
    if PhaseOf(s.state) == LowPower {
      LowPowerIdleRankFalls(cfg, s, i, Step(cfg, s, i));
    } else {
      StepRankFalls(cfg, s, i);
      EdgeFollowsArrow(cfg, s, i, Step(cfg, s, i));
      OnlyIdleStartsLowPower(s.state, Step(cfg, s, i).state);
    }
  }

  lemma LowPowerIdleRankFalls(cfg: Config, s: Registers, i: Inputs, t: Registers)
    requires cfg.Valid() && CountFits(cfg, s) && CommandFits(s) && FlowEdge(cfg, s, i, t)
    requires PhaseOf(s.state) == LowPower && !s.state.Idle? && i.selfRefreshExit && i.powerDownExit
    ensures 0 <= IdleRank(cfg, t) < IdleRank(cfg, s)
  {
  }

  lemma OnlyIdleStartsLowPower(a: State, b: State)
    requires Arrow(a, b) && PhaseOf(a) != LowPower
    ensures PhaseOf(b) != LowPower || b == Idle
  {
  }

  /** While both exits are requested the engine is back in IDLE within a fixed number of edges. */
  lemma {:induction false} ReturnsToIdle(cfg: Config, s: Registers, inputs: seq<Inputs>) returns (k: nat)
    requires cfg.Valid() && Inv(cfg, s) && NoReset(inputs) && ExitsRequested(inputs) && |inputs| >= IdleRank(cfg, s)
    ensures k <= |inputs| && k <= IdleRank(cfg, s)
    ensures Run(cfg, s, inputs[..k]).state.Idle?
    decreases |inputs|
  {
    RankBounded(cfg, s);
    if s.state.Idle? {
      k := 0;
    } else {
      StepIdleRankFalls(cfg, s, inputs[0]);
      StepKeepsInv(cfg, s, inputs[0]);
      var j := ReturnsToIdle(cfg, Step(cfg, s, inputs[0]), inputs[1..]);
      k := j + 1;
      assert inputs[..k][1..] == inputs[1..][..j];
    }
  }
}
