/**
 * The pin-level turnaround monitor: WRITE to READ and READ to WRITE on any bank, WRITE and READ to
 * PRECHARGE on the same bank. `Observe` is one clock edge and `Violates` is its failure stop.
 */
module TurnaroundChecker {
  import opened DdrBus

  const TWTR_MIN := 4
  const TRTW_MIN := 8
  const TWR_MIN := 8
  const TRTP_MIN := 4

  const INTEGER_WRAP := 0x1_0000_0000
  const INTEGER_HALF := 0x8000_0000

  /** No such command so far. */
  const NEVER := -1

  /**
   * `cycle` and the stamps count without bound; the monitor holds them in 32-bit signed integers, and
   * the rules below read only those.
   */
  datatype Monitor = Monitor(cycle: int, lastWrite: int, lastRead: int, bankWrite: seq<int>, bankRead: seq<int>) {
    predicate Valid() { |bankWrite| == 4 && |bankRead| == 4 }
  }

  const RESET := Monitor(0, NEVER, NEVER, [NEVER, NEVER, NEVER, NEVER], [NEVER, NEVER, NEVER, NEVER])

  /** The value a 32-bit signed integer holds for x. */
  function Signed(x: int): int {
    if x % INTEGER_WRAP < INTEGER_HALF then x % INTEGER_WRAP else x % INTEGER_WRAP - INTEGER_WRAP
  }

  /** The registers show a stamp, and show it less than `min` cycles ago. */
  predicate LooksRecent(cycle: int, last: int, min: int) {
    Signed(last) >= 0 && Signed(cycle - last) < min
  }

  predicate BreaksTrtw(m: Monitor, p: Pins) { Decode(p) == CmdWrite && LooksRecent(m.cycle, m.lastRead, TRTW_MIN) }

  predicate BreaksTwtr(m: Monitor, p: Pins) { Decode(p) == CmdRead && LooksRecent(m.cycle, m.lastWrite, TWTR_MIN) }

  predicate BreaksTwr(m: Monitor, p: Pins)
    requires m.Valid()
  {
    Decode(p) == CmdPre && LooksRecent(m.cycle, m.bankWrite[p.ba], TWR_MIN)
  }

  predicate BreaksTrtp(m: Monitor, p: Pins)
    requires m.Valid()
  {
    Decode(p) == CmdPre && LooksRecent(m.cycle, m.bankRead[p.ba], TRTP_MIN)
  }

  predicate Violates(m: Monitor, p: Pins)
    requires m.Valid()
  {
    BreaksTrtw(m, p) || BreaksTwtr(m, p) || BreaksTwr(m, p) || BreaksTrtp(m, p)
  }

  function Observe(m: Monitor, p: Pins): (n: Monitor)
    requires m.Valid()
    ensures n.Valid()
  {
    Monitor(
      m.cycle + 1,
      if Decode(p) == CmdWrite then m.cycle else m.lastWrite,
      if Decode(p) == CmdRead then m.cycle else m.lastRead,
      if Decode(p) == CmdWrite then m.bankWrite[p.ba := m.cycle] else m.bankWrite,
      if Decode(p) == CmdRead then m.bankRead[p.ba := m.cycle] else m.bankRead)
  }

  // ---------------------------------------------------------------- the clocked block

  lemma SignedShift(x: int)
    ensures exists k :: Signed(x) == x - k * INTEGER_WRAP
  {
    var k := x / INTEGER_WRAP + if x % INTEGER_WRAP < INTEGER_HALF then 0 else 1;
    assert Signed(x) == x - k * INTEGER_WRAP;
  }

  lemma SignedOfShifted(z: int, k: int)
    ensures Signed(z - k * INTEGER_WRAP) == Signed(z)
  {
    var q, r := z / INTEGER_WRAP, z % INTEGER_WRAP;
    assert z - k * INTEGER_WRAP == (q - k) * INTEGER_WRAP + r;
    assert (z - k * INTEGER_WRAP) % INTEGER_WRAP == r;
  }

  /** 32-bit arithmetic on the registers gives what unbounded arithmetic would show. */
  lemma SignedDifference(x: int, y: int)
    ensures Signed(Signed(x) - Signed(y)) == Signed(x - y)
  {
    SignedShift(x);
    SignedShift(y);
    var j :| Signed(x) == x - j * INTEGER_WRAP;
    var k :| Signed(y) == y - k * INTEGER_WRAP;
    assert Signed(x) - Signed(y) == (x - y) - (j - k) * INTEGER_WRAP;
    SignedOfShifted(x - y, j - k);
  }

  lemma SignedSuccessor(x: int)
    ensures Signed(Signed(x) + 1) == Signed(x + 1)
  {
    SignedShift(x);
    var k :| Signed(x) == x - k * INTEGER_WRAP;
    SignedOfShifted(x + 1, k);
  }

  /** The source's registers, all 32-bit signed. */
  class Block {
    var cycle: int
    var lastWrAny: int
    var lastRdAny: int
    const lastWrBank: array<int>
    const lastRdBank: array<int>

    /** The same state with unbounded time, as the specification sees it. */
    ghost var monitor: Monitor

    ghost predicate Valid()
      reads this, lastWrBank, lastRdBank
    {
      && lastWrBank.Length == lastRdBank.Length == 4 && lastWrBank != lastRdBank && monitor.Valid()
      && cycle == Signed(monitor.cycle)
      && lastWrAny == Signed(monitor.lastWrite) && lastRdAny == Signed(monitor.lastRead)
      && forall b :: 0 <= b < 4 ==>
        lastWrBank[b] == Signed(monitor.bankWrite[b]) && lastRdBank[b] == Signed(monitor.bankRead[b])
    }

    constructor ()
      ensures Valid() && monitor == RESET && fresh(lastWrBank) && fresh(lastRdBank)
    {
      cycle, lastWrAny, lastRdAny := 0, NEVER, NEVER;
      lastWrBank := new int[4](_ => NEVER);
      lastRdBank := new int[4](_ => NEVER);
      monitor := RESET;
    }

    method Clear()
      requires Valid()
      modifies this, lastWrBank, lastRdBank
      ensures Valid() && monitor == RESET
    {
      for b := 0 to 4
        invariant forall k :: 0 <= k < b ==> lastWrBank[k] == NEVER && lastRdBank[k] == NEVER
      {
        lastWrBank[b], lastRdBank[b] := NEVER, NEVER;
      }
      cycle, lastWrAny, lastRdAny := 0, NEVER, NEVER;
      monitor := RESET;
    }

    /** What the rules find, on the registers before the edge. */
    method Check(p: Pins) returns (fatal: bool)
      requires Valid()
      ensures fatal <==> Violates(monitor, p)
    {
      fatal := false;
      SignedDifference(monitor.cycle, monitor.lastRead);
      SignedDifference(monitor.cycle, monitor.lastWrite);
      SignedDifference(monitor.cycle, monitor.bankWrite[p.ba]);
      SignedDifference(monitor.cycle, monitor.bankRead[p.ba]);
      if Decode(p) == CmdWrite && lastRdAny >= 0 && Signed(cycle - lastRdAny) < TRTW_MIN {
        fatal := true;
      }
      if Decode(p) == CmdRead && lastWrAny >= 0 && Signed(cycle - lastWrAny) < TWTR_MIN {
        fatal := true;
      }
      if Decode(p) == CmdPre {
        if lastWrBank[p.ba] >= 0 && Signed(cycle - lastWrBank[p.ba]) < TWR_MIN {
          fatal := true;
        }
        if lastRdBank[p.ba] >= 0 && Signed(cycle - lastRdBank[p.ba]) < TRTP_MIN {
          fatal := true;
        }
      }
    }

    /** One clock edge; `fatal` is the monitor's stop. */
    method Clock(reset: bool, p: Pins) returns (fatal: bool)
      requires Valid()
      modifies this, lastWrBank, lastRdBank
      ensures Valid()
      ensures monitor == if reset then RESET else Observe(old(monitor), p)
      ensures fatal <==> !reset && Violates(old(monitor), p)
    {
      if reset {
        Clear();
        return false;
      }
      fatal := Check(p);
      if Decode(p) == CmdWrite {
        lastWrAny := cycle;
        lastWrBank[p.ba] := cycle;
      }
      if Decode(p) == CmdRead {
        lastRdAny := cycle;
        lastRdBank[p.ba] := cycle;
      }
      SignedSuccessor(monitor.cycle);
      cycle := Signed(cycle + 1);
      monitor := Observe(monitor, p);
    }
  }
}
