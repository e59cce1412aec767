/** What the turnaround monitor's stamps mean: its rules in terms of the commands on the pins since reset. */
module TurnaroundHistory {
  import opened DdrBus
  import opened TurnaroundChecker

  /** The monitor after these cycles. */
  function Watched(pins: seq<Pins>): (m: Monitor)
    ensures m.Valid()
  {
    if pins == [] then RESET else Observe(Watched(pins[..|pins| - 1]), pins[|pins| - 1])
  }

  /** One of the last d - 1 cycles carried this command. */
  predicate Recently(pins: seq<Pins>, c: Command, d: int) {
    exists j :: 0 <= j < |pins| && |pins| - d < j && Decode(pins[j]) == c
  }

  predicate RecentlyTo(pins: seq<Pins>, c: Command, b: Bank, d: int) {
    exists j :: 0 <= j < |pins| && |pins| - d < j && Decode(pins[j]) == c && pins[j].ba == b
  }

  /** The stamp is the time of the last such command. */
  predicate LastTime(pins: seq<Pins>, c: Command, stamp: int) {
    && NEVER <= stamp < |pins| && (stamp >= 0 ==> Decode(pins[stamp]) == c)
    && forall j :: 0 <= j < |pins| && j > stamp ==> Decode(pins[j]) != c
  }

  predicate LastTimeTo(pins: seq<Pins>, c: Command, b: Bank, stamp: int) {
    && NEVER <= stamp < |pins| && (stamp >= 0 ==> Decode(pins[stamp]) == c && pins[stamp].ba == b)
    && forall j :: 0 <= j < |pins| && j > stamp ==> !(Decode(pins[j]) == c && pins[j].ba == b)
  }

  predicate Means(pins: seq<Pins>, m: Monitor)
    requires m.Valid()
  {
    && m.cycle == |pins| && LastTime(pins, CmdRead, m.lastRead) && LastTime(pins, CmdWrite, m.lastWrite)
    && forall b: Bank :: LastTimeTo(pins, CmdRead, b, m.bankRead[b]) && LastTimeTo(pins, CmdWrite, b, m.bankWrite[b])
  }

  lemma StampMoves(pins: seq<Pins>, p: Pins, c: Command, stamp: int)
    requires LastTime(pins, c, stamp)
    ensures LastTime(pins + [p], c, if Decode(p) == c then |pins| else stamp)
  {
  }

  lemma BankStampMoves(pins: seq<Pins>, p: Pins, c: Command, b: Bank, stamp: int)
    requires LastTimeTo(pins, c, b, stamp)
    ensures LastTimeTo(pins + [p], c, b, if Decode(p) == c && p.ba == b then |pins| else stamp)
  {
  }

  lemma {:induction false} MonitorMeans(pins: seq<Pins>)
    ensures Means(pins, Watched(pins))
  {
    if pins != [] {
      var before := pins[..|pins| - 1];
      var p := pins[|pins| - 1];
      var m := Watched(before);
      MonitorMeans(before);
      assert before + [p] == pins;
      StampMoves(before, p, CmdRead, m.lastRead);
      StampMoves(before, p, CmdWrite, m.lastWrite);
      forall b: Bank
        ensures LastTimeTo(pins, CmdRead, b, Watched(pins).bankRead[b]) && LastTimeTo(pins, CmdWrite, b, Watched(pins).bankWrite[b])
      {
        BankStampMoves(before, p, CmdRead, b, m.bankRead[b]);
        BankStampMoves(before, p, CmdWrite, b, m.bankWrite[b]);
      }
    }
  }

  lemma RecentStamp(pins: seq<Pins>, c: Command, stamp: int, d: int)
    requires LastTime(pins, c, stamp) && |pins| < INTEGER_HALF && 0 < d < INTEGER_HALF
    ensures LooksRecent(|pins|, stamp, d) <==> Recently(pins, c, d)
  {
    if stamp >= 0 && |pins| - stamp < d {
      assert Decode(pins[stamp]) == c;
    }
  }

  lemma RecentBankStamp(pins: seq<Pins>, c: Command, b: Bank, stamp: int, d: int)
    requires LastTimeTo(pins, c, b, stamp) && |pins| < INTEGER_HALF && 0 < d < INTEGER_HALF
    ensures LooksRecent(|pins|, stamp, d) <==> RecentlyTo(pins, c, b, d)
  {
    if stamp >= 0 && |pins| - stamp < d {
      assert Decode(pins[stamp]) == c && pins[stamp].ba == b;
    }
  }

  /**
   * For every history shorter than 2^31 cycles the monitor stops exactly on a WRITE less than 8 cycles after a READ, a
   * READ less than 4 after a WRITE, or a precharge less than 8 after a WRITE or 4 after a READ to its bank.
   */
  lemma VerdictIsHistory(pins: seq<Pins>, p: Pins)
    requires |pins| < INTEGER_HALF
    ensures Violates(Watched(pins), p) <==>
      || (Decode(p) == CmdWrite && Recently(pins, CmdRead, 8))
      || (Decode(p) == CmdRead && Recently(pins, CmdWrite, 4))
      || (Decode(p) == CmdPre && (RecentlyTo(pins, CmdWrite, p.ba, 8) || RecentlyTo(pins, CmdRead, p.ba, 4)))
  {
    var m := Watched(pins);
    MonitorMeans(pins);
    RecentStamp(pins, CmdRead, m.lastRead, 8);
    RecentStamp(pins, CmdWrite, m.lastWrite, 4);
    RecentBankStamp(pins, CmdWrite, p.ba, m.bankWrite[p.ba], 8);
    RecentBankStamp(pins, CmdRead, p.ba, m.bankRead[p.ba], 4);
  }
}
