/** Bursts of the memory model from the command to the last word, whatever else is on the pins meanwhile. */
module DeviceBursts {
  import opened DdrBus
  import opened SimpleMem

  /** What the device sees in one cycle. */
  datatype Cycle = Cycle(pins: Pins, dq: Dq)

  predicate IsRun(mc: SimpleMem.Config, trace: seq<Memory>, cycles: seq<Cycle>) {
    && |trace| == |cycles| + 1 && (forall n :: 0 <= n < |trace| ==> trace[n].Valid(mc))
    && forall n: nat {:trigger SimpleMem.Step(mc, trace[n], cycles[n].pins, cycles[n].dq)} :: n < |cycles| ==>
      trace[n + 1] == SimpleMem.Step(mc, trace[n], cycles[n].pins, cycles[n].dq)
  }

  /** The cell of word k of a burst: the column runs on within its ten bits, of which the memory looks at five. */
  function WordCell(mc: SimpleMem.Config, b: Burst, k: nat): (x: nat)
    requires mc.depth > 0
    ensures x < mc.depth
  {
    (b.row % 32 * 128 + b.bank * 32 + (b.col + k) % 32) % mc.depth
  }

  lemma ColumnRunsOn(col: int, k: nat)
    ensures (col + k) % 1024 % 32 == (col + k) % 32
  {
  }

  /** k cycles into a read of burst b: counting down the latency, then one word a cycle, seven in all. */
  predicate Reading(mc: SimpleMem.Config, b: Burst, k: int, m: Memory) {
    && m.rdPending && m.rd == b
    && if k < mc.readLatency then !m.rdDrive && m.rdLat == mc.readLatency - k + 1
       else m.rdDrive && m.rdBeat == k - mc.readLatency + 1
  }

  lemma ReadBegins(mc: SimpleMem.Config, m: Memory, c: Cycle)
    requires mc.Valid() && m.Valid(mc) && mc.readLatency >= 2 && Decode(c.pins) == CmdRead && !m.rdPending
    ensures Reading(mc, Burst(m.rows[c.pins.ba], c.pins.ba, c.pins.a / 2 % 512), 1, SimpleMem.Step(mc, m, c.pins, c.dq))
  {
  }

  lemma ReadGoesOn(mc: SimpleMem.Config, b: Burst, k: nat, m: Memory, c: Cycle)
    requires mc.Valid() && m.Valid(mc) && 1 <= k < mc.readLatency + 7 && Reading(mc, b, k, m) && 0 <= b.col < 512
    ensures var n := SimpleMem.Step(mc, m, c.pins, c.dq);
      && (k < mc.readLatency + 6 ==> Reading(mc, b, k + 1, n))
      && (k >= mc.readLatency - 1 ==> n.rdData == m.cells[WordCell(mc, b, k + 1 - mc.readLatency)])
      && (k == mc.readLatency + 6 ==> !n.rdPending && !n.rdDrive)
  {
    if k >= mc.readLatency {
      ColumnRunsOn(b.col, m.rdBeat);
      assert (b.col + m.rdBeat) % 1024 == b.col + m.rdBeat;
    }
  }

  /** The memory after k cycles shows word j of the burst as it was in the cycle before. */
  predicate ShowsWord(mc: SimpleMem.Config, b: Burst, before: Memory, m: Memory, j: nat)
    requires before.Valid(mc)
  {
    m.rdDrive && m.rdData == before.cells[WordCell(mc, b, j)]
  }

  lemma {:induction false} RunReads(mc: SimpleMem.Config, trace: seq<Memory>, cycles: seq<Cycle>, n: nat, b: Burst, k: nat)
    requires mc.Valid() && IsRun(mc, trace, cycles) && mc.readLatency >= 2 && 1 <= k < mc.readLatency + 7 && n + k < |trace|
    requires Decode(cycles[n].pins) == CmdRead && !trace[n].rdPending
    requires b == Burst(trace[n].rows[cycles[n].pins.ba], cycles[n].pins.ba, cycles[n].pins.a / 2 % 512)
    ensures Reading(mc, b, k, trace[n + k])
  {
    if k == 1 {
      assert trace[n + 1] == SimpleMem.Step(mc, trace[n], cycles[n].pins, cycles[n].dq);
      ReadBegins(mc, trace[n], cycles[n]);
    } else {
      RunReads(mc, trace, cycles, n, b, k - 1);
      var j := n + k - 1;
      assert trace[j + 1] == SimpleMem.Step(mc, trace[j], cycles[j].pins, cycles[j].dq);
      ReadGoesOn(mc, b, k - 1, trace[j], cycles[j]);
    }
  }

  /**
   * From a READ on, for every latency of at least two: the words of the burst come one a cycle, the first of them as
   * many cycles after the READ as the latency says, at consecutive columns of the open row. Only seven of the eight
   * are driven; the device lets go of the lines when the last one would be due.
   */
  lemma BurstShowsWords(mc: SimpleMem.Config, trace: seq<Memory>, cycles: seq<Cycle>, n: nat, b: Burst, j: nat)
    requires mc.Valid() && IsRun(mc, trace, cycles) && mc.readLatency >= 2 && j < 8 && n + mc.readLatency + j < |trace|
    requires Decode(cycles[n].pins) == CmdRead && !trace[n].rdPending
    requires b == Burst(trace[n].rows[cycles[n].pins.ba], cycles[n].pins.ba, cycles[n].pins.a / 2 % 512)
    ensures var k := n + mc.readLatency + j;
      if j < 7 then ShowsWord(mc, b, trace[k - 1], trace[k], j) else !trace[k].rdDrive && !trace[k].rdPending
  {
    var k := n + mc.readLatency + j;
    RunReads(mc, trace, cycles, n, b, mc.readLatency + j - 1);
    assert trace[k] == SimpleMem.Step(mc, trace[k - 1], cycles[k - 1].pins, cycles[k - 1].dq);
    ReadGoesOn(mc, b, mc.readLatency + j - 1, trace[k - 1], cycles[k - 1]);
  }

  /** A latency below two is never counted down to the cycle in which the device looks up the first word. */
  lemma ShortLatencyNeverDrives(mc: SimpleMem.Config, m: Memory, c: Cycle)
    requires mc.Valid() && m.Valid(mc) && m.rdPending && !m.rdDrive && 0 <= m.rdLat < 2
    ensures var n := SimpleMem.Step(mc, m, c.pins, c.dq); n.rdPending && !n.rdDrive && 0 <= n.rdLat < 2
  {
  }

  // ---------------------------------------------------------------- writes

  /** The last word anybody drove in these cycles, zero if nobody did. */
  function LastDriven(cycles: seq<Cycle>): Word {
    if cycles == [] then 0
    else if cycles[|cycles| - 1].dq.Driven? then cycles[|cycles| - 1].dq.word
    else LastDriven(cycles[..|cycles| - 1])
  }

  /** k cycles into a write of burst b: waiting out the latency, then listening, with the last word heard kept. */
  predicate Writing(b: Burst, k: int, heard: Word, m: Memory) {
    && m.wrPending && m.wr == b && m.wrLast == heard
    && if k <= WRITE_LATENCY then m.wrLat == WRITE_LATENCY + 1 - k && m.wrBeat == 0
       else m.wrLat == 0 && m.wrBeat == k - WRITE_LATENCY - 1
  }

  const WRITE_TIME := WRITE_LATENCY + 1 + 7

  lemma WriteBegins(mc: SimpleMem.Config, m: Memory, c: Cycle)
    requires mc.Valid() && m.Valid(mc) && Decode(c.pins) == CmdWrite && !m.wrPending
    ensures var n := SimpleMem.Step(mc, m, c.pins, c.dq);
      && Writing(Burst(m.rows[c.pins.ba], c.pins.ba, c.pins.a / 2 % 512), 1, 0, n) && n.cells == m.cells
  {
  }

  lemma WriteGoesOn(mc: SimpleMem.Config, b: Burst, k: nat, heard: Word, m: Memory, c: Cycle)
    requires mc.Valid() && m.Valid(mc) && 1 <= k < WRITE_TIME && Writing(b, k, heard, m)
    ensures var n := SimpleMem.Step(mc, m, c.pins, c.dq);
      && Writing(b, k + 1, if k > WRITE_LATENCY && c.dq.Driven? then c.dq.word else heard, n) && n.cells == m.cells
  {
  }

  lemma WriteEnds(mc: SimpleMem.Config, b: Burst, heard: Word, m: Memory, c: Cycle)
    requires mc.Valid() && m.Valid(mc) && Writing(b, WRITE_TIME, heard, m)
    ensures var n := SimpleMem.Step(mc, m, c.pins, c.dq);
      && !n.wrPending && n.cells == Fill(m.cells, WordIndex(b.row, b.bank, b.col), BURST, heard)
  {
  }

  /** The cycles the device has listened to, k cycles after the WRITE at n. */
  function Heard(cycles: seq<Cycle>, n: nat, k: nat): (heard: seq<Cycle>)
    requires n + k <= |cycles|
  {
    if k <= WRITE_LATENCY + 1 then [] else cycles[n + WRITE_LATENCY + 1..n + k]
  }

  lemma HeardOneMore(cycles: seq<Cycle>, n: nat, k: nat)
    requires WRITE_LATENCY < k && n + k < |cycles|
    ensures Heard(cycles, n, k + 1) == Heard(cycles, n, k) + [cycles[n + k]]
  {
  }

  lemma {:induction false} RunWrites(mc: SimpleMem.Config, trace: seq<Memory>, cycles: seq<Cycle>, n: nat, b: Burst, k: nat)
    requires mc.Valid() && IsRun(mc, trace, cycles) && 1 <= k <= WRITE_TIME && n + k <= |cycles|
    requires Decode(cycles[n].pins) == CmdWrite && !trace[n].wrPending
    requires b == Burst(trace[n].rows[cycles[n].pins.ba], cycles[n].pins.ba, cycles[n].pins.a / 2 % 512)
    ensures Writing(b, k, LastDriven(Heard(cycles, n, k)), trace[n + k]) && trace[n + k].cells == trace[n].cells
  {
    if k == 1 {
      assert trace[n + 1] == SimpleMem.Step(mc, trace[n], cycles[n].pins, cycles[n].dq);
      WriteBegins(mc, trace[n], cycles[n]);
    } else {
      var j := n + k - 1;
      RunWrites(mc, trace, cycles, n, b, k - 1);
      assert trace[j + 1] == SimpleMem.Step(mc, trace[j], cycles[j].pins, cycles[j].dq);
      WriteGoesOn(mc, b, k - 1, LastDriven(Heard(cycles, n, k - 1)), trace[j], cycles[j]);
      if k - 1 > WRITE_LATENCY {
        HeardOneMore(cycles, n, k - 1);
      }
    }
  }

  /**
   * From a WRITE on: nothing is stored for twenty cycles. Then eight consecutive words, from the column of the open row
   * on, take the last word driven in the seven cycles before, after the latency of twelve; zero if nobody drove any.
   */
  lemma BurstStoresWord(mc: SimpleMem.Config, trace: seq<Memory>, cycles: seq<Cycle>, n: nat, b: Burst)
    requires mc.Valid() && IsRun(mc, trace, cycles) && n + WRITE_TIME < |cycles|
    requires Decode(cycles[n].pins) == CmdWrite && !trace[n].wrPending
    requires b == Burst(trace[n].rows[cycles[n].pins.ba], cycles[n].pins.ba, cycles[n].pins.a / 2 % 512)
    ensures trace[n + 20].cells == trace[n].cells
    ensures trace[n + 21].cells ==
            Fill(trace[n].cells, b.row % 32 * 128 + b.bank * 32 + b.col % 32, 8, LastDriven(cycles[n + 13..n + 20]))
    ensures !trace[n + 21].wrPending
  {
    RunWrites(mc, trace, cycles, n, b, WRITE_TIME);
    assert trace[n + 21] == SimpleMem.Step(mc, trace[n + 20], cycles[n + 20].pins, cycles[n + 20].dq);
    WriteEnds(mc, b, LastDriven(Heard(cycles, n, WRITE_TIME)), trace[n + 20], cycles[n + 20]);
  }
}
