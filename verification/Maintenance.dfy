/**
 * What the engine does on its own account, cycle by cycle: refresh, self-refresh, power-down and DLL changes, from
 * the cycle after IDLE has decided to the cycle in which the engine is back in IDLE.
 */
module Maintenance {
  import opened DdrBus
  import opened ProtocolEngine
  import opened EngineInvariant
  import opened Arbitration
  import Core

  datatype Errand = Refreshing | SelfRefreshing | PoweringDown | Relocking(dllOff: bool)

  /** IDLE has decided for it. */
  predicate Decides(cfg: Config, e: Errand, s: Registers, i: Inputs) {
    && s.state.Idle? && i.ready && !i.reset
    && match e
      case SelfRefreshing => WantsSelfRefresh(s, i)
      case Refreshing => !WantsSelfRefresh(s, i) && Due(cfg, s)
      case Relocking(off) => !WantsSelfRefresh(s, i) && WantsDll(cfg, s, i) && i.dllMode == off
      case PoweringDown => !WantsSelfRefresh(s, i) && !WantsDll(cfg, s, i) && WantsPowerDown(cfg, s, i)
  }

  // ---------------------------------------------------------------- what the device should see

  const PRECHARGE_BEATS := 2
  const MAIN := 11

  /** The command lines k cycles after the decision. */
  function BusAt(e: Errand, k: nat): Bus {
    if 1 <= k <= PRECHARGE_BEATS then PRECHARGE
    else if k < MAIN then DESELECT
    else match e
      case Refreshing => if k == MAIN then REFRESH else DESELECT
      case Relocking(_) => if k == MAIN || k == MAIN + 1 then MODE_SET else DESELECT
      case SelfRefreshing => NOP
      case PoweringDown => NOP
  }

  /** CKE falls in power-down one cycle before the main part, in self-refresh one cycle after it has begun. */
  predicate CkeAt(e: Errand, k: nat) {
    !(e.PoweringDown? && k >= MAIN - 1) && !(e.SelfRefreshing? && k >= MAIN + 1)
  }

  /** All banks are precharged; the mode register of bank 0 gets the value for the requested mode. */
  predicate Shows(cfg: Config, e: Errand, k: nat, p: Pins) {
    && p.bus == BusAt(e, k) && p.cke == CkeAt(e, k)
    && (p.bus == PRECHARGE ==> p.a == PRECHARGE_ALL)
    && (p.bus == MODE_SET ==> e.Relocking? && p.ba == 0 && p.a == if e.dllOff then cfg.mrsDllOff else cfg.mrsDllOn)
  }

  /** Cycles from the decision back to IDLE. The low-power modes have no end of their own. */
  function Length(cfg: Config, e: Errand): nat
    requires cfg.Valid() && (e.Refreshing? || e.Relocking?)
  {
    if e.Refreshing? then MAIN + 1 + RFC_WAIT else MAIN + 2 + MRD_WAIT + 1 + cfg.dllLock
  }

  // ---------------------------------------------------------------- the engine's registers

  predicate InPrecharge(e: Errand, st: State) {
    match e case Refreshing => st.RPre? case SelfRefreshing => st.SrefPre? case PoweringDown => st.PdPre? case Relocking(_) => st.DllPre?
  }

  predicate InWait(e: Errand, st: State) {
    match e case Refreshing => st.RNop? case SelfRefreshing => st.SrefTrp? case PoweringDown => st.PdTrp? case Relocking(_) => st.DllTrp?
  }

  predicate InMain(e: Errand, st: State) {
    match e case Refreshing => st.RRef? case SelfRefreshing => st.SrefEnter? case PoweringDown => st.PdIdle? case Relocking(_) => st.DllMrs?
  }

  /** Precharge and the wait for it are the same for all errands. */
  predicate Begun(e: Errand, k: nat, s: Registers) {
    if k <= 1 then InPrecharge(e, s.state) && s.cnt == 1 - k
    else if k <= 9 then InWait(e, s.state) && s.cnt == 9 - k
    else InMain(e, s.state) && s.cnt == if e.PoweringDown? then 0 else 1
  }

  predicate Underway(cfg: Config, e: Errand, k: nat, s: Registers) {
    match e
    case Refreshing => if k < MAIN + 1 + RFC_WAIT then s.state.RIdl? && s.cnt == MAIN + RFC_WAIT - k else s.state.Idle?
    case SelfRefreshing => if k == MAIN then s.state.SrefEnter? && s.cnt == 0 else s.state.SrefIdle?
    case PoweringDown => s.state.PdIdle?
    case Relocking(_) =>
      if k == MAIN then s.state.DllMrs? && s.cnt == 0
      else if k <= MAIN + 1 + MRD_WAIT then s.state.DllTmrd? && s.cnt == MAIN + 1 + MRD_WAIT - k
      else if k < MAIN + 3 + MRD_WAIT + cfg.dllLock then s.state.DllTdllk? && s.dllCnt == MAIN + 2 + MRD_WAIT + cfg.dllLock - k
      else s.state.Idle?
  }

  /** The DLL registers of a change: accepted, and busy on the outside from the second cycle on. */
  predicate Relocks(cfg: Config, e: Errand, k: nat, s: Registers)
    requires e.Relocking? ==> cfg.Valid()
  {
    e.Relocking? ==>
      && s.dllMode == e.dllOff && (s.dllInProgress <==> k < Length(cfg, e)) && (s.dllBusy <==> k >= 1)
  }

  predicate Flags(e: Errand, k: nat, s: Registers) {
    && (s.selfRefresh <==> e.SelfRefreshing? && k >= MAIN)
    && (s.selfRefreshOut <==> e.SelfRefreshing? && k >= MAIN + 1)
    && (s.powerDown <==> e.PoweringDown? && k >= MAIN - 1)
  }

  predicate PinsFit(cfg: Config, e: Errand, k: nat, s: Registers) {
    && s.bus == BusAt(e, k)
    && (s.bus == PRECHARGE ==> s.a == PRECHARGE_ALL)
    && (s.bus == MODE_SET ==> e.Relocking? && s.ba == 0 && s.a == if e.dllOff then cfg.mrsDllOff else cfg.mrsDllOn)
  }

  predicate At(cfg: Config, e: Errand, k: nat, s: Registers)
    requires cfg.Valid()
  {
    && (if k < MAIN then Begun(e, k, s) else Underway(cfg, e, k, s))
    && Relocks(cfg, e, k, s) && Flags(e, k, s) && PinsFit(cfg, e, k, s)
  }

  /** The errand goes on: no reset, and no exit from a low-power mode is requested. */
  predicate GoesOn(e: Errand, i: Inputs) {
    !i.reset && (e.SelfRefreshing? ==> !i.selfRefreshExit) && (e.PoweringDown? ==> !i.powerDownExit)
  }

  // ---------------------------------------------------------------- one edge

  lemma FirstEdge(cfg: Config, e: Errand, s: Registers, i: Inputs)
    requires cfg.Valid() && Inv(cfg, s) && Decides(cfg, e, s, i)
    ensures At(cfg, e, 0, Step(cfg, s, i))
  {
    StepEdges(cfg, s, i);
    IdleDecides(cfg, s, i);
  }

  predicate DllEdge(cfg: Config, s: Registers, i: Inputs, t: Registers) {
    && t.dllMode == (if StartsDll(cfg, s, i) then i.dllMode else s.dllMode)
    && t.dllInProgress == (StartsDll(cfg, s, i) || (s.dllInProgress && !(s.state.DllTdllk? && s.dllCnt == 0)))
    && t.dllCnt == NextDllCnt(cfg, s) && t.dllBusy == s.dllInProgress
  }

  predicate ModeEdge(s: Registers, i: Inputs, t: Registers) {
    t.selfRefresh == NextSelfRefresh(s, i) && t.selfRefreshOut == s.selfRefresh && t.powerDown == NextPowerDown(s, i)
  }

  lemma PrechargeMoves(cfg: Config, e: Errand, k: nat, s: Registers, i: Inputs, t: Registers)
    requires cfg.Valid() && k < PRECHARGE_BEATS && Begun(e, k, s) && GoesOn(e, i) && FlowEdge(cfg, s, i, t)
    ensures Begun(e, k + 1, t)
  {
  }

  lemma WaitMoves(cfg: Config, e: Errand, k: nat, s: Registers, i: Inputs, t: Registers)
    requires cfg.Valid() && PRECHARGE_BEATS <= k < MAIN - 1 && Begun(e, k, s) && GoesOn(e, i) && FlowEdge(cfg, s, i, t)
    ensures Begun(e, k + 1, t)
  {
  }

  lemma MainMoves(cfg: Config, e: Errand, s: Registers, i: Inputs, t: Registers)
    requires cfg.Valid() && Begun(e, MAIN - 1, s) && GoesOn(e, i) && FlowEdge(cfg, s, i, t)
    ensures Underway(cfg, e, MAIN, t)
  {
  }

  lemma RelockingMoves(cfg: Config, e: Errand, k: nat, s: Registers, i: Inputs, t: Registers)
    requires cfg.Valid() && e.Relocking? && MAIN <= k < Length(cfg, e) && Underway(cfg, e, k, s) && FlowEdge(cfg, s, i, t)
    requires t.dllCnt == NextDllCnt(cfg, s)
    ensures Underway(cfg, e, k + 1, t)
  {
  }

  lemma UnderwayMoves(cfg: Config, e: Errand, k: nat, s: Registers, i: Inputs, t: Registers)
    requires cfg.Valid() && !e.Relocking? && k >= MAIN && Underway(cfg, e, k, s) && GoesOn(e, i) && FlowEdge(cfg, s, i, t)
    requires e.Refreshing? ==> k < Length(cfg, e)
    ensures Underway(cfg, e, k + 1, t)
  {
  }

  lemma FlagsMove(cfg: Config, e: Errand, k: nat, s: Registers, i: Inputs, t: Registers)
    requires cfg.Valid() && At(cfg, e, k, s) && GoesOn(e, i) && ModeEdge(s, i, t)
    requires e.Refreshing? || e.Relocking? ==> k < Length(cfg, e)
    ensures Flags(e, k + 1, t)
  {
  }

  lemma RelocksMove(cfg: Config, e: Errand, k: nat, s: Registers, i: Inputs, t: Registers)
    requires cfg.Valid() && At(cfg, e, k, s) && DllEdge(cfg, s, i, t)
    requires e.Refreshing? || e.Relocking? ==> k < Length(cfg, e)
    ensures Relocks(cfg, e, k + 1, t)
  {
  }

  lemma EarlyPinsMove(cfg: Config, e: Errand, k: nat, s: Registers, t: Registers)
    requires k < MAIN - 1 && Begun(e, k, s) && PinEdge(cfg, s, t)
    ensures PinsFit(cfg, e, k + 1, t)
  {
  }

  lemma MainPinsMove(cfg: Config, e: Errand, s: Registers, t: Registers)
    requires Begun(e, MAIN - 1, s) && PinEdge(cfg, s, t) && (e.Relocking? ==> s.dllMode == e.dllOff)
    ensures PinsFit(cfg, e, MAIN, t)
  {
  }

  lemma RelockingPinsMove(cfg: Config, e: Errand, k: nat, s: Registers, t: Registers)
    requires cfg.Valid() && e.Relocking? && MAIN <= k < Length(cfg, e) && Underway(cfg, e, k, s) && PinEdge(cfg, s, t)
    requires s.dllMode == e.dllOff
    ensures PinsFit(cfg, e, k + 1, t)
  {
  }

  lemma LatePinsMove(cfg: Config, e: Errand, k: nat, s: Registers, t: Registers)
    requires cfg.Valid() && !e.Relocking? && k >= MAIN && Underway(cfg, e, k, s) && PinEdge(cfg, s, t)
    requires e.Refreshing? ==> k < Length(cfg, e)
    ensures PinsFit(cfg, e, k + 1, t)
  {
  }

  lemma PinsMove(cfg: Config, e: Errand, k: nat, s: Registers, t: Registers)
    requires cfg.Valid() && At(cfg, e, k, s) && PinEdge(cfg, s, t)
    requires e.Refreshing? || e.Relocking? ==> k < Length(cfg, e)
    ensures PinsFit(cfg, e, k + 1, t)
  {
    if k < MAIN - 1 {
      EarlyPinsMove(cfg, e, k, s, t);
    } else if k == MAIN - 1 {
      MainPinsMove(cfg, e, s, t);
    } else if e.Relocking? {
      RelockingPinsMove(cfg, e, k, s, t);
    } else {
      LatePinsMove(cfg, e, k, s, t);
    }
  }

  lemma StepMoves(cfg: Config, e: Errand, k: nat, s: Registers, i: Inputs)
    requires cfg.Valid() && At(cfg, e, k, s) && GoesOn(e, i)
    requires e.Refreshing? || e.Relocking? ==> k < Length(cfg, e)
    ensures At(cfg, e, k + 1, Step(cfg, s, i))
  {
    var t := Step(cfg, s, i);
    StepEdges(cfg, s, i);
    if k < PRECHARGE_BEATS {
      PrechargeMoves(cfg, e, k, s, i, t);
    } else if k < MAIN - 1 {
      WaitMoves(cfg, e, k, s, i, t);
    } else if k == MAIN - 1 {
      MainMoves(cfg, e, s, i, t);
    } else if e.Relocking? {
      RelockingMoves(cfg, e, k, s, i, t);
    } else {
      UnderwayMoves(cfg, e, k, s, i, t);
    }
    FlagsMove(cfg, e, k, s, i, t);
    RelocksMove(cfg, e, k, s, i, t);
    PinsMove(cfg, e, k, s, t);
  }

  // ---------------------------------------------------------------- whole runs

  predicate GoesOnAt(e: Errand, trace: seq<Core.State>, inputs: seq<Core.Inputs>, j: nat)
    requires j < |inputs| < |trace|
  {
    GoesOn(e, Core.EngineInputs(trace[j], inputs[j]))
  }

  /** Edge n decides for the errand, and it goes on for k more edges. */
  predicate Undisturbed(cfg: Core.Config, e: Errand, trace: seq<Core.State>, inputs: seq<Core.Inputs>, n: nat, k: nat) {
    && n + k < |inputs| < |trace|
    && Decides(cfg.engine, e, trace[n].engine, Core.EngineInputs(trace[n], inputs[n]))
    && forall j: nat :: n < j <= n + k ==> GoesOnAt(e, trace, inputs, j)
  }

  /** Where an errand can be after k cycles at the most. */
  predicate WithinLength(cfg: Config, e: Errand, k: nat)
    requires cfg.Valid()
  {
    e.Refreshing? || e.Relocking? ==> k <= Length(cfg, e)
  }

  /** The controller is ready, k cycles into the errand, and the device sees what it should. */
  predicate OnCourse(cfg: Core.Config, e: Errand, k: nat, c: Core.State)
    requires cfg.Valid()
  {
    c.init.ready && At(cfg.engine, e, k, c.engine) && Shows(cfg.engine, e, k, Core.Pads(c))
  }

  lemma PadsShow(cfg: Core.Config, e: Errand, k: nat, c: Core.State)
    requires cfg.Valid() && c.init.ready && At(cfg.engine, e, k, c.engine)
    ensures OnCourse(cfg, e, k, c)
  {
  }

  lemma FirstOnCourse(cfg: Core.Config, e: Errand, c: Core.State, i: Core.Inputs)
    requires cfg.Valid() && Core.Fits(cfg, c) && Decides(cfg.engine, e, c.engine, Core.EngineInputs(c, i))
    ensures OnCourse(cfg, e, 0, Core.Step(cfg, c, i))
  {
    FirstEdge(cfg.engine, e, c.engine, Core.EngineInputs(c, i));
    Core.ReadyStays(cfg, c, i);
    PadsShow(cfg, e, 0, Core.Step(cfg, c, i));
  }

  lemma NextOnCourse(cfg: Core.Config, e: Errand, k: nat, c: Core.State, i: Core.Inputs)
    requires cfg.Valid() && Core.Fits(cfg, c) && OnCourse(cfg, e, k, c) && GoesOn(e, Core.EngineInputs(c, i))
    requires WithinLength(cfg.engine, e, k + 1)
    ensures OnCourse(cfg, e, k + 1, Core.Step(cfg, c, i))
  {
    StepMoves(cfg.engine, e, k, c.engine, Core.EngineInputs(c, i));
    Core.ReadyStays(cfg, c, i);
    PadsShow(cfg, e, k + 1, Core.Step(cfg, c, i));
  }

  lemma RunDecides(cfg: Core.Config, e: Errand, trace: seq<Core.State>, inputs: seq<Core.Inputs>, n: nat)
    requires cfg.Valid() && Core.IsTrace(cfg, trace, inputs) && n < |inputs|
    requires Decides(cfg.engine, e, trace[n].engine, Core.EngineInputs(trace[n], inputs[n]))
    ensures OnCourse(cfg, e, 0, trace[n + 1])
  {
    Core.TraceFits(cfg, trace, inputs, n);
    assert trace[n + 1] == Core.Step(cfg, trace[n], inputs[n]);
    FirstOnCourse(cfg, e, trace[n], inputs[n]);
  }

  lemma RunGoesOn(cfg: Core.Config, e: Errand, trace: seq<Core.State>, inputs: seq<Core.Inputs>, j: nat, k: nat)
    requires cfg.Valid() && Core.IsTrace(cfg, trace, inputs) && j < |inputs| && GoesOnAt(e, trace, inputs, j)
    requires OnCourse(cfg, e, k, trace[j]) && WithinLength(cfg.engine, e, k + 1)
    ensures OnCourse(cfg, e, k + 1, trace[j + 1])
  {
    Core.TraceFits(cfg, trace, inputs, j);
    assert trace[j + 1] == Core.Step(cfg, trace[j], inputs[j]);
    NextOnCourse(cfg, e, k, trace[j], inputs[j]);
  }

  /**
   * On every run from reset, whatever else the host asks for meanwhile: an errand IDLE has decided for shows the
   * device exactly the precharge, the wait and the commands it should, each in its cycle. A refresh is over after
   * exactly its length; a DLL change too, lock time included, with DLL_BUSY up from its second cycle on; CKE falls
   * for power-down and self-refresh and stays low, with NOP on the command lines, until the exit is requested.
   */
  lemma {:induction false} ErrandsRun(cfg: Core.Config, e: Errand, trace: seq<Core.State>, inputs: seq<Core.Inputs>, n: nat, k: nat)
    requires cfg.Valid() && Core.IsTrace(cfg, trace, inputs) && Undisturbed(cfg, e, trace, inputs, n, k)
    requires WithinLength(cfg.engine, e, k)
    ensures OnCourse(cfg, e, k, trace[n + 1 + k])
  {
    if k == 0 {
      RunDecides(cfg, e, trace, inputs, n);
    } else {
      ErrandsRun(cfg, e, trace, inputs, n, k - 1);
      RunGoesOn(cfg, e, trace, inputs, n + k, k - 1);
    }
  }
}
