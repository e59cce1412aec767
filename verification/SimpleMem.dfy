/** The behavioural memory on the other side of the pins, with a single rank. */
module SimpleMem {
  import opened DdrBus

  const WRITE_LATENCY := 12
  const BURST := 8

  /** `readLatency` counts from the READ command. */
  datatype Config = Config(depth: nat, readLatency: nat) {
    predicate Valid() { depth > 0 && readLatency < 256 }
  }

  /** What is on the DQ lines: a word, or nobody drives them. */
  datatype Dq = Floating | Driven(word: Word)

  datatype Burst = Burst(row: int, bank: Bank, col: int)

  datatype Memory = Memory(
    cells: seq<Word>, rows: seq<int>,
    wrPending: bool, wr: Burst, wrBeat: int, wrLast: Word, wrLat: int,
    rdPending: bool, rd: Burst, rdBeat: int, rdLat: int, rdDrive: bool, rdData: Word
  ) {
    predicate Valid(cfg: Config) { |cells| == cfg.depth > 0 && |rows| == 4 }
  }

  /** Five row bits, the bank and five column bits. */
  function WordIndex(row: int, bank: Bank, col: int): (x: nat) { row % 32 * 128 + bank * 32 + col % 32 }

  function CellOf(cfg: Config, b: Burst): (x: nat)
    requires cfg.depth > 0
    ensures x < cfg.depth
  {
    WordIndex(b.row, b.bank, b.col) % cfg.depth
  }

  function Slot(depth: nat, base: nat, k: nat): (x: nat)
    requires depth > 0
    ensures x < depth
  {
    (base + k) % depth
  }

  /** The same word stored in n consecutive cells, wrapping at the depth. */
  function Fill(cells: seq<Word>, base: nat, n: nat, w: Word): (r: seq<Word>)
    requires |cells| > 0
    ensures |r| == |cells|
  {
    if n == 0 then cells else Fill(cells, base, n - 1, w)[Slot(|cells|, base, n - 1) := w]
  }

  /** Exactly the n slots from the base on hold the word afterwards. */
  lemma {:induction false} FillSlots(cells: seq<Word>, base: nat, n: nat, w: Word, x: nat)
    requires x < |cells|
    ensures Fill(cells, base, n, w)[x] ==
            if exists k :: 0 <= k < n && Slot(|cells|, base, k) == x then w else cells[x]
  {
    if n > 0 {
      FillSlots(cells, base, n - 1, w, x);
      if Slot(|cells|, base, n - 1) != x && exists k :: 0 <= k < n && Slot(|cells|, base, k) == x {
        var k :| 0 <= k < n && Slot(|cells|, base, k) == x;
        assert k < n - 1;
      }
    }
  }

  // ---------------------------------------------------------------- one clock edge

  predicate Commits(m: Memory) { m.wrPending && m.wrLat == 0 && m.wrBeat == 7 }

  predicate StartsWrite(m: Memory, p: Pins) { !m.wrPending && Decode(p) == CmdWrite }

  predicate StartsRead(m: Memory, p: Pins) { !m.rdPending && Decode(p) == CmdRead }

  function Addressed(m: Memory, p: Pins): Burst
    requires |m.rows| == 4
  {
    Burst(m.rows[p.ba], p.ba, p.a / 2 % 512)
  }

  function NextCells(cfg: Config, m: Memory): (r: seq<Word>)
    requires m.Valid(cfg)
    ensures |r| == cfg.depth
  {
    if Commits(m) then Fill(m.cells, WordIndex(m.wr.row, m.wr.bank, m.wr.col), BURST, m.wrLast) else m.cells
  }

  function NextWrLast(m: Memory, p: Pins, dq: Dq): Word {
    if StartsWrite(m, p) then 0
    else if m.wrPending && m.wrLat == 0 && dq.Driven? then dq.word
    else m.wrLast
  }

  function NextWrBeat(m: Memory, p: Pins): int {
    if StartsWrite(m, p) || Commits(m) then 0
    else if m.wrPending && m.wrLat == 0 then m.wrBeat + 1
    else m.wrBeat
  }

  /** The first word is looked up with the latency counter at two, so that it is on the bus in time. */
  predicate StartsDriving(m: Memory) { m.rdPending && !m.rdDrive && m.rdLat == 2 }

  predicate EndsRead(m: Memory) { m.rdPending && m.rdDrive && m.rdBeat == 7 }

  function NextRdLat(cfg: Config, m: Memory, p: Pins): int {
    if StartsRead(m, p) then cfg.readLatency
    else if m.rdPending && !m.rdDrive && m.rdLat != 2 && m.rdLat != 0 then m.rdLat - 1
    else m.rdLat
  }

  function NextRdBeat(m: Memory, p: Pins): int {
    if StartsRead(m, p) then 0
    else if StartsDriving(m) then 1
    else if m.rdPending && m.rdDrive then (m.rdBeat + 1) % 8
    else m.rdBeat
  }

  function NextRdData(cfg: Config, m: Memory): Word
    requires m.Valid(cfg)
  {
    if StartsDriving(m) then m.cells[CellOf(cfg, m.rd)]
    else if m.rdPending && m.rdDrive then m.cells[CellOf(cfg, m.rd.(col := (m.rd.col + m.rdBeat) % 1024))]
    else m.rdData
  }

  function Step(cfg: Config, m: Memory, p: Pins, dq: Dq): (n: Memory)
    requires m.Valid(cfg)
    ensures n.Valid(cfg)
  {
    Memory(
      cells := NextCells(cfg, m),
      rows := if Decode(p) == CmdAct then m.rows[p.ba := p.a] else m.rows,
      wrPending := StartsWrite(m, p) || (m.wrPending && !Commits(m)),
      wr := if StartsWrite(m, p) then Addressed(m, p) else m.wr,
      wrBeat := NextWrBeat(m, p),
      wrLast := NextWrLast(m, p, dq),
      wrLat := if StartsWrite(m, p) then WRITE_LATENCY else if m.wrPending && m.wrLat != 0 then m.wrLat - 1 else m.wrLat,
      rdPending := StartsRead(m, p) || (m.rdPending && !EndsRead(m)),
      rd := if StartsRead(m, p) then Addressed(m, p) else m.rd,
      rdBeat := NextRdBeat(m, p),
      rdLat := NextRdLat(cfg, m, p),
      rdDrive := !StartsRead(m, p) && (StartsDriving(m) || (m.rdDrive && !EndsRead(m))),
      rdData := NextRdData(cfg, m))
  }

  predicate Resting(m: Memory) { !m.wrPending && !m.rdPending && !m.rdDrive }

  // ---------------------------------------------------------------- the clocked blocks

  /** The source's registers and word memory. */
  class Block {
    const cfg: Config
    const mem: array<Word>
    const activeRow: array<int>
    var wrPending: bool
    var wr: Burst
    var wrBeat: int
    var wrLastDq: Word
    var wrLatCnt: int
    var rdPending: bool
    var rd: Burst
    var rdBeat: int
    var rdLatCnt: int
    var rdDrive: bool
    var rdDataReg: Word

    ghost predicate Valid() { cfg.Valid() && mem.Length == cfg.depth && activeRow.Length == 4 }

    ghost function Snapshot(): (m: Memory)
      reads this, mem, activeRow
      requires Valid()
      ensures m.Valid(cfg)
    {
      Memory(mem[..], activeRow[..], wrPending, wr, wrBeat, wrLastDq, wrLatCnt,
             rdPending, rd, rdBeat, rdLatCnt, rdDrive, rdDataReg)
    }

    constructor (cfg: Config)
      requires cfg.Valid()
      ensures Valid() && this.cfg == cfg && fresh(mem) && fresh(activeRow)
      ensures Resting(Snapshot()) && forall x :: 0 <= x < cfg.depth ==> Snapshot().cells[x] == 0
    {
      this.cfg := cfg;
      mem := new Word[cfg.depth](_ => 0);
      activeRow := new int[4](_ => 0);
      wrPending, wr, wrBeat, wrLastDq, wrLatCnt := false, Burst(0, 0, 0), 0, 0, 0;
      rdPending, rd, rdBeat, rdLatCnt, rdDrive, rdDataReg := false, Burst(0, 0, 0), 0, 0, false, 0;
    }

    /** The read burst: latency countdown, then one word a cycle. */
    method ClockRead(p: Pins)
      requires Valid()
      modifies this`rdPending, this`rd, this`rdBeat, this`rdLatCnt, this`rdDrive, this`rdDataReg
      ensures var m := old(Snapshot());
        var n := Step(cfg, m, p, Floating);
        && rdPending == n.rdPending && rd == n.rd && rdBeat == n.rdBeat && rdLatCnt == n.rdLat
        && rdDrive == n.rdDrive && rdDataReg == n.rdData
    {
      if !rdPending && Decode(p) == CmdRead {
        rdPending := true;
        rd := Burst(activeRow[p.ba], p.ba, p.a / 2 % 512);
        rdBeat := 0;
        rdLatCnt := cfg.readLatency;
        rdDrive := false;
      } else if rdPending {
        if !rdDrive {
          if rdLatCnt == 2 {
            rdDataReg := mem[CellOf(cfg, rd)];
            rdDrive := true;
            rdBeat := 1;
          } else if rdLatCnt != 0 {
            rdLatCnt := rdLatCnt - 1;
          }
        } else {
          rdDataReg := mem[CellOf(cfg, rd.(col := (rd.col + rdBeat) % 1024))];
          if rdBeat == 7 {
            rdPending := false;
            rdDrive := false;
          }
          rdBeat := (rdBeat + 1) % 8;
        }
      }
    }

    /** All eight words of a finished burst are written at once. */
    method Commit()
      requires Valid()
      modifies mem
      ensures mem[..] == Fill(old(mem[..]), WordIndex(wr.row, wr.bank, wr.col), BURST, wrLastDq)
    {
      var base := WordIndex(wr.row, wr.bank, wr.col);
      for beat := 0 to BURST
        invariant mem[..] == Fill(old(mem[..]), base, beat, wrLastDq)
      {
        mem[(base + beat) % cfg.depth] := wrLastDq;
      }
    }

    /** The write burst: latency countdown, then the last driven word is kept until the eighth beat. */
    method ClockWrite(p: Pins, dq: Dq)
      requires Valid()
      modifies this`wrPending, this`wr, this`wrBeat, this`wrLastDq, this`wrLatCnt, mem
      ensures var m := old(Snapshot());
        var n := Step(cfg, m, p, dq);
        && mem[..] == n.cells
        && wrPending == n.wrPending && wr == n.wr && wrBeat == n.wrBeat && wrLastDq == n.wrLast && wrLatCnt == n.wrLat
    {
      if !wrPending {
        if Decode(p) == CmdWrite {
          wrPending := true;
          wr := Burst(activeRow[p.ba], p.ba, p.a / 2 % 512);
          wrBeat := 0;
          wrLastDq := 0;
          wrLatCnt := WRITE_LATENCY;
        }
      } else if wrLatCnt != 0 {
        wrLatCnt := wrLatCnt - 1;
      } else if wrBeat == 7 {
        Commit();
        wrPending := false;
        wrBeat := 0;
        if dq.Driven? {
          wrLastDq := dq.word;
        }
      } else {
        wrBeat := wrBeat + 1;
        if dq.Driven? {
          wrLastDq := dq.word;
        }
      }
    }

    /** One clock edge: reads see the words and rows before it. */
    method Clock(p: Pins, dq: Dq)
      requires Valid()
      modifies this, mem, activeRow
      ensures Snapshot() == Step(cfg, old(Snapshot()), p, dq)
    {
      ClockRead(p);
      ClockWrite(p, dq);
      if Decode(p) == CmdAct {
        activeRow[p.ba] := p.a;
      }
    }
  }
}
