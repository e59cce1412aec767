/**
 * The pin-level timing monitor: tRCD, tRP and tRAS per bank, tRFC between refreshes, and
 * tRRD/tFAW between activations. `Observe` is one clock edge and `Violates` is its failure stop.
 */
module TimingChecker {
  import opened DdrBus

  const TRCD_MIN := 4
  const TRP_MIN := 4
  const TRAS_MIN := 20
  const TRFC_MIN := 100
  const TRRD_MIN := 2
  const TFAW_MIN := 16

  const BYTE_MAX := 0xFF
  const HALF_MAX := 0xFFFF
  const CYCLE_WRAP := 0x1_0000_0000

  datatype BankTimers = BankTimers(sinceAct: int, sincePre: int, activeTime: int, rowActive: bool)

  /**
   * `cycle` and the activation stamps count without bound; the 32-bit registers of the monitor
   * hold them modulo `CYCLE_WRAP`, and the tFAW rule below reads only the registers.
   */
  datatype Monitor = Monitor(
    banks: seq<BankTimers>,
    sinceRef: int, haveRef: bool,
    sinceLastAct: int, haveAct: bool,
    cycle: int, stamp0: int, stamp1: int, stamp2: int, stamp3: int,
    prev: Command
  ) {
    predicate Valid() { |banks| == 4 }
  }

  const CLEARED := BankTimers(0, 0, 0, false)

  const RESET := Monitor([CLEARED, CLEARED, CLEARED, CLEARED], 0, false, 0, false, 0, 0, 0, 0, 0, CmdNop)

  predicate ActPulse(m: Monitor, p: Pins) { Decode(p) == CmdAct && m.prev != CmdAct }

  predicate RefPulse(m: Monitor, p: Pins) { Decode(p) == CmdRef && m.prev != CmdRef }

  // ---------------------------------------------------------------- the rules

  predicate BreaksTrrd(m: Monitor, p: Pins) {
    ActPulse(m, p) && m.haveAct && m.sinceLastAct < TRRD_MIN
  }

  predicate BreaksTfaw(m: Monitor, p: Pins) {
    && ActPulse(m, p)
    && m.stamp0 % CYCLE_WRAP != 0
    && (m.cycle - m.stamp0) % CYCLE_WRAP < TFAW_MIN
  }

  predicate BreaksTrp(m: Monitor, p: Pins)
    requires m.Valid()
  {
    ActPulse(m, p) && m.banks[p.ba].sincePre < TRP_MIN
  }

  predicate BreaksTras(m: Monitor, p: Pins)
    requires m.Valid()
  {
    Decode(p) == CmdPre && m.banks[p.ba].rowActive && m.banks[p.ba].activeTime < TRAS_MIN
  }

  predicate BreaksTrcd(m: Monitor, p: Pins)
    requires m.Valid()
  {
    && (Decode(p) == CmdRead || Decode(p) == CmdWrite)
    && m.banks[p.ba].rowActive && m.banks[p.ba].sinceAct < TRCD_MIN
  }

  predicate BreaksTrfc(m: Monitor, p: Pins) {
    RefPulse(m, p) && m.haveRef && m.sinceRef < TRFC_MIN
  }

  predicate Violates(m: Monitor, p: Pins)
    requires m.Valid()
  {
    BreaksTrrd(m, p) || BreaksTfaw(m, p) || BreaksTrp(m, p) || BreaksTras(m, p) || BreaksTrcd(m, p) || BreaksTrfc(m, p)
  }

  // ---------------------------------------------------------------- one clock edge

  function Saturate(x: int, max: int): int { if x != max then x + 1 else x }

  /** A bank's timers after an edge on which it was (`here`) or was not addressed. */
  function NextBank(t: BankTimers, here: bool, act: bool, pre: bool): BankTimers {
    BankTimers(
      if here && act then 0 else Saturate(t.sinceAct, BYTE_MAX),
      if here && pre then 0 else Saturate(t.sincePre, BYTE_MAX),
      if here && (act || pre) then 0 else if t.rowActive then Saturate(t.activeTime, BYTE_MAX) else t.activeTime,
      if here && act then true else if here && pre then false else t.rowActive)
  }

  function NextBanks(m: Monitor, p: Pins): (banks: seq<BankTimers>)
    requires m.Valid()
    ensures |banks| == 4
    ensures forall b :: 0 <= b < 4 ==>
      banks[b] == NextBank(m.banks[b], b == p.ba, ActPulse(m, p), Decode(p) == CmdPre)
  {
    seq(4, b requires 0 <= b < 4 => NextBank(m.banks[b], b == p.ba, ActPulse(m, p), Decode(p) == CmdPre))
  }

  function Observe(m: Monitor, p: Pins): (n: Monitor)
    requires m.Valid()
    ensures n.Valid()
  {
    var act := ActPulse(m, p);
    Monitor(
      NextBanks(m, p),
      if RefPulse(m, p) then 0 else Saturate(m.sinceRef, HALF_MAX),
      m.haveRef || RefPulse(m, p),
      if act then 0 else Saturate(m.sinceLastAct, HALF_MAX),
      m.haveAct || act,
      m.cycle + 1,
      if act then m.stamp1 else m.stamp0,
      if act then m.stamp2 else m.stamp1,
      if act then m.stamp3 else m.stamp2,
      if act then m.cycle else m.stamp3,
      Decode(p))
  }

  // ---------------------------------------------------------------- the clocked block

  /** A difference of two wrapped registers is the wrapped difference. */
  lemma WrappedDifference(x: int, y: int)
    ensures (x % CYCLE_WRAP - y % CYCLE_WRAP) % CYCLE_WRAP == (x - y) % CYCLE_WRAP
  {
    var k := x / CYCLE_WRAP - y / CYCLE_WRAP;
    assert x % CYCLE_WRAP - y % CYCLE_WRAP == (x - y) - k * CYCLE_WRAP;
    ModShift(x - y, k);
  }

  lemma ModShift(z: int, k: int)
    ensures (z - k * CYCLE_WRAP) % CYCLE_WRAP == z % CYCLE_WRAP
  {
    var q, r := z / CYCLE_WRAP, z % CYCLE_WRAP;
    assert z - k * CYCLE_WRAP == (q - k) * CYCLE_WRAP + r;
  }

  lemma ResetBanks(b: int)
    requires 0 <= b < 4
    ensures RESET.banks[b] == CLEARED
  {
  }

  /** The source's registers: one timer array per rule, and 32-bit activation stamps. */
  class Block {
    const sinceAct: array<int>
    const sincePre: array<int>
    const activeTime: array<int>
    const rowActive: array<bool>
    const lastActCycles: array<int>
    var sinceRef: int
    var haveRef: bool
    var sinceLastAct: int
    var haveAct: bool
    var actCycle: int
    var prev: Command

    /** The same state with unbounded time, as the specification sees it. */
    ghost var monitor: Monitor

    ghost predicate Shape() {
      && sinceAct.Length == sincePre.Length == activeTime.Length == rowActive.Length == lastActCycles.Length == 4
      && sinceAct != sincePre && sinceAct != activeTime && sincePre != activeTime
      && lastActCycles != sinceAct && lastActCycles != sincePre && lastActCycles != activeTime
    }

    ghost predicate ShowsBanks(banks: seq<BankTimers>)
      requires Shape() && |banks| == 4
      reads sinceAct, sincePre, activeTime, rowActive
    {
      forall b :: 0 <= b < 4 ==> banks[b] == BankTimers(sinceAct[b], sincePre[b], activeTime[b], rowActive[b])
    }

    ghost predicate ShowsStamps(m: Monitor)
      requires Shape()
      reads lastActCycles
    {
      && lastActCycles[0] == m.stamp0 % CYCLE_WRAP && lastActCycles[1] == m.stamp1 % CYCLE_WRAP
      && lastActCycles[2] == m.stamp2 % CYCLE_WRAP && lastActCycles[3] == m.stamp3 % CYCLE_WRAP
    }

    ghost predicate Valid()
      reads this, sinceAct, sincePre, activeTime, rowActive, lastActCycles
    {
      && Shape() && monitor.Valid() && ShowsBanks(monitor.banks) && ShowsStamps(monitor)
      && sinceRef == monitor.sinceRef && haveRef == monitor.haveRef
      && sinceLastAct == monitor.sinceLastAct && haveAct == monitor.haveAct
      && actCycle == monitor.cycle % CYCLE_WRAP && prev == monitor.prev
    }

    constructor ()
      ensures Valid() && monitor == RESET
      ensures fresh(sinceAct) && fresh(sincePre) && fresh(activeTime) && fresh(rowActive) && fresh(lastActCycles)
    {
      sinceAct := new int[4](_ => 0);
      sincePre := new int[4](_ => 0);
      activeTime := new int[4](_ => 0);
      rowActive := new bool[4](_ => false);
      lastActCycles := new int[4](_ => 0);
      sinceRef, haveRef, sinceLastAct, haveAct, actCycle := 0, false, 0, false, 0;
      prev := CmdNop;
      monitor := RESET;
      new;
      forall b | 0 <= b < 4 ensures RESET.banks[b] == BankTimers(sinceAct[b], sincePre[b], activeTime[b], rowActive[b]) {
        ResetBanks(b);
      }
    }

    method Clear()
      requires Valid()
      modifies this, sinceAct, sincePre, activeTime, rowActive, lastActCycles
      ensures Valid() && monitor == RESET
    {
      for i := 0 to 4
        invariant forall b :: 0 <= b < i ==> sinceAct[b] == sincePre[b] == activeTime[b] == 0 && !rowActive[b]
      {
        sinceAct[i], sincePre[i], activeTime[i], rowActive[i] := 0, 0, 0, false;
      }
      for i := 0 to 4
        invariant forall b :: 0 <= b < i ==> lastActCycles[b] == 0
        invariant forall b :: 0 <= b < 4 ==> sinceAct[b] == sincePre[b] == activeTime[b] == 0 && !rowActive[b]
      {
        lastActCycles[i] := 0;
      }
      sinceRef, haveRef, sinceLastAct, haveAct, actCycle := 0, false, 0, false, 0;
      prev := CmdNop;
      monitor := RESET;
      forall b | 0 <= b < 4 ensures RESET.banks[b] == BankTimers(sinceAct[b], sincePre[b], activeTime[b], rowActive[b]) {
        ResetBanks(b);
      }
    }

    /** All timers run, whatever the command. */
    method RunTimers()
      requires Shape()
      modifies sinceAct, sincePre, activeTime
      ensures forall b :: 0 <= b < 4 ==>
        && sinceAct[b] == Saturate(old(sinceAct[b]), BYTE_MAX) && sincePre[b] == Saturate(old(sincePre[b]), BYTE_MAX)
        && activeTime[b] == if rowActive[b] then Saturate(old(activeTime[b]), BYTE_MAX) else old(activeTime[b])
    {
      for i := 0 to 4
        invariant forall b :: 0 <= b < i ==>
          && sinceAct[b] == Saturate(old(sinceAct[b]), BYTE_MAX) && sincePre[b] == Saturate(old(sincePre[b]), BYTE_MAX)
          && activeTime[b] == if rowActive[b] then Saturate(old(activeTime[b]), BYTE_MAX) else old(activeTime[b])
        invariant forall b :: i <= b < 4 ==>
          sinceAct[b] == old(sinceAct[b]) && sincePre[b] == old(sincePre[b]) && activeTime[b] == old(activeTime[b])
      {
        if sinceAct[i] != BYTE_MAX {
          sinceAct[i] := sinceAct[i] + 1;
        }
        if sincePre[i] != BYTE_MAX {
          sincePre[i] := sincePre[i] + 1;
        }
        if rowActive[i] && activeTime[i] != BYTE_MAX {
          activeTime[i] := activeTime[i] + 1;
        }
      }
    }

    /** The bank timers of one edge: all run, then the command restarts those of its bank. */
    method ClockBanks(ba: Bank, act: bool, pre: bool)
      requires Shape() && !(act && pre)
      modifies sinceAct, sincePre, activeTime, rowActive
      ensures forall b :: 0 <= b < 4 ==>
        BankTimers(sinceAct[b], sincePre[b], activeTime[b], rowActive[b])
        == NextBank(old(BankTimers(sinceAct[b], sincePre[b], activeTime[b], rowActive[b])), b == ba, act, pre)
    {
      RunTimers();
      if act {
        sinceAct[ba], activeTime[ba], rowActive[ba] := 0, 0, true;
      }
      if pre {
        sincePre[ba], activeTime[ba], rowActive[ba] := 0, 0, false;
      }
    }

    /** The window of the last four activations moves on. */
    method ShiftWindow()
      requires Shape()
      modifies lastActCycles
      ensures forall b :: 0 <= b < 3 ==> lastActCycles[b] == old(lastActCycles[b + 1])
      ensures lastActCycles[3] == actCycle
    {
      for i := 0 to 3
        invariant forall b :: 0 <= b < i ==> lastActCycles[b] == old(lastActCycles[b + 1])
        invariant forall b :: i <= b < 4 ==> lastActCycles[b] == old(lastActCycles[b])
      {
        lastActCycles[i] := lastActCycles[i + 1];
      }
      lastActCycles[3] := actCycle;
    }

    /** The counters and activation stamps that belong to no bank. */
    method ClockCounters(act: bool, ref: bool)
      requires Shape() && 0 <= actCycle < CYCLE_WRAP
      modifies this`sinceRef, this`haveRef, this`sinceLastAct, this`haveAct, this`actCycle, lastActCycles
      ensures sinceRef == if ref then 0 else Saturate(old(sinceRef), HALF_MAX)
      ensures sinceLastAct == if act then 0 else Saturate(old(sinceLastAct), HALF_MAX)
      ensures haveRef == (old(haveRef) || ref) && haveAct == (old(haveAct) || act)
      ensures actCycle == (old(actCycle) + 1) % CYCLE_WRAP
      ensures lastActCycles[0] == old(if act then lastActCycles[1] else lastActCycles[0])
      ensures lastActCycles[1] == old(if act then lastActCycles[2] else lastActCycles[1])
      ensures lastActCycles[2] == old(if act then lastActCycles[3] else lastActCycles[2])
      ensures lastActCycles[3] == old(if act then actCycle else lastActCycles[3])
    {
      if act {
        ShiftWindow();
        sinceLastAct, haveAct := 0, true;
      } else {
        sinceLastAct := Saturate(sinceLastAct, HALF_MAX);
      }
      if ref {
        sinceRef, haveRef := 0, true;
      } else {
        sinceRef := Saturate(sinceRef, HALF_MAX);
      }
      actCycle := (actCycle + 1) % CYCLE_WRAP;
    }

    /** What the rules find, on the registers before the edge. */
    method Check(p: Pins) returns (fatal: bool)
      requires Valid()
      ensures fatal <==> Violates(monitor, p)
    {
      fatal := false;
      var pulse := Decode(p) == CmdAct && prev != CmdAct;
      if pulse {
        WrappedDifference(monitor.cycle, monitor.stamp0);
        if haveAct && sinceLastAct < TRRD_MIN {
          fatal := true;
        }
        if lastActCycles[0] != 0 && (actCycle - lastActCycles[0]) % CYCLE_WRAP < TFAW_MIN {
          fatal := true;
        }
        if sincePre[p.ba] < TRP_MIN {
          fatal := true;
        }
      }
      if Decode(p) == CmdPre && rowActive[p.ba] && activeTime[p.ba] < TRAS_MIN {
        fatal := true;
      }
      if (Decode(p) == CmdRead || Decode(p) == CmdWrite) && rowActive[p.ba] && sinceAct[p.ba] < TRCD_MIN {
        fatal := true;
      }
      if Decode(p) == CmdRef && prev != CmdRef && haveRef && sinceRef < TRFC_MIN {
        fatal := true;
      }
    }

    /** One clock edge; `fatal` is the monitor's stop. */
    method Clock(reset: bool, p: Pins) returns (fatal: bool)
      requires Valid()
      modifies this, sinceAct, sincePre, activeTime, rowActive, lastActCycles
      ensures Valid()
      ensures monitor == if reset then RESET else Observe(old(monitor), p)
      ensures fatal <==> !reset && Violates(old(monitor), p)
    {
      if reset {
        Clear();
        return false;
      }
      fatal := Check(p);
      var act := Decode(p) == CmdAct && prev != CmdAct;
      var ref := Decode(p) == CmdRef && prev != CmdRef;
      ClockBanks(p.ba, act, Decode(p) == CmdPre);
      ClockCounters(act, ref);
      prev := Decode(p);
      monitor := Observe(monitor, p);
    }
  }
}
