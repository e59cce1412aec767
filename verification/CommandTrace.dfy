/**
 * Everything the engine does for one command, cycle by cycle, from the edge that latches it to the
 * edge that returns to IDLE: commands on the pins, write words requested, read words pushed.
 */
module CommandTrace {
  import opened DdrBus
  import opened ProtocolEngine
  import opened EngineInvariant
  import opened Progress

  datatype Event =
    | Opened(bank: Bank, row: int)
    | ReadAt(bank: Bank, a: int)
    | WroteAt(bank: Bank, a: int)
    | Precharged
    | Refreshed
    | ModeSet
    | TookWord
    | Returned(tag: Address)

  /** An event and the number of cycles since the command was latched. */
  datatype Entry = Entry(at: int, event: Event)

  // ---------------------------------------------------------------- what a command should do

  /** The row is opened by ACTIVATE held for so many beats. A block command holds it until the ACT gap has passed. */
  function Opening(a: Address, beats: nat): seq<Entry> { seq(beats, k => Entry(1 + k, Opened(BankOf(a), RowOf(a)))) }

  const SCALAR_BEATS := 2
  const BLOCK_BEATS := 9

  /** Consecutive requests for a write word. */
  function Takes(from: int, n: nat): seq<Entry> { seq(n, k => Entry(from + k, TookWord)) }

  function Tag(a: Address, k: int): Address { (a + k) % 0x200_0000 }

  /** Consecutive pushes: the address itself comes twice, then the addresses after it. */
  function Returns(a: Address, from: int, n: nat): seq<Entry> {
    seq(n, k requires 0 <= k < n => Entry(from + k, Returned(Tag(a, if k == 0 then 0 else k - 1))))
  }

  function BlockStart(sz: Size, j: int): int { 13 + Bursts(sz, j) }

  /** One sub-burst of a block write: the precharge flag is raised on the last one only. */
  function Block(a: Address, sz: Size, j: int): seq<Entry> {
    [Entry(BlockStart(sz, j) + 1, WroteAt(BankOf(a), ColumnPins(BlockColumn(ColOf(a), j), j == sz)))]
    + Takes(BlockStart(sz, j) + 14, 8)
  }

  function Blocks(a: Address, sz: Size, n: nat): seq<Entry> {
    if n == 0 then [] else Blocks(a, sz, n - 1) + Block(a, sz, n - 1)
  }

  function ScalarRead(a: Address): seq<Entry> { Opening(a, SCALAR_BEATS) + [Entry(7, ReadAt(BankOf(a), ColumnPins(ColOf(a), true)))] }

  function ScalarWrite(a: Address): seq<Entry> { Opening(a, SCALAR_BEATS) + [Entry(7, WroteAt(BankOf(a), ColumnPins(ColOf(a), true)))] }

  function BlockRead(a: Address, sz: Size): seq<Entry> {
    Opening(a, BLOCK_BEATS) + [Entry(14, ReadAt(BankOf(a), ColumnPins(ColOf(a), sz == 0)))]
  }

  function BlockWrite(a: Address, sz: Size, j: nat): seq<Entry> {
    Opening(a, BLOCK_BEATS) + Blocks(a, sz, j)
    + [Entry(BlockStart(sz, j) + 1, WroteAt(BankOf(a), ColumnPins(BlockColumn(ColOf(a), j), j == sz)))]
  }

  function Expected(cfg: Config, cmd: Code, sz: Size, a: Address): seq<Entry> {
    if cmd == CODE_SCR then ScalarRead(a) + Returns(a, cfg.readWait + 8, 9)
    else if cmd == CODE_SCW then ScalarWrite(a) + Takes(20, 8)
    else if cmd == CODE_BLR then BlockRead(a, sz)
    else if cmd == CODE_BLW then Opening(a, BLOCK_BEATS) + Blocks(a, sz, sz + 1)
    else Opening(a, SCALAR_BEATS)
  }

  /** Cycles from latching to IDLE. */
  function Duration(cfg: Config, cmd: Code, sz: Size): int {
    if cmd == CODE_SCR then cfg.readWait + 17
    else if cmd == CODE_SCW then 46
    else if cmd == CODE_BLR then cfg.readWait + 16
    else if cmd == CODE_BLW then BlockStart(sz, sz + 1)
    else 2
  }

  // ---------------------------------------------------------------- what it does

  /** The recording of the current command; `dropped` if it was given up after its ACTIVATE. */
  datatype Trace = Trace(log: seq<Entry>, time: int, dropped: bool)

  function PinEvent(t: Registers): seq<Event> {
    if t.bus == ACTIVATE then [Opened(t.ba, t.a)]
    else if t.bus == READ then [ReadAt(t.ba, t.a)]
    else if t.bus == WRITE then [WroteAt(t.ba, t.a)]
    else if t.bus == PRECHARGE then [Precharged]
    else if t.bus == REFRESH then [Refreshed]
    else if t.bus == MODE_SET then [ModeSet]
    else []
  }

  function Emitted(t: Registers): seq<Event> {
    PinEvent(t) + (if t.getData then [TookWord] else []) + if t.putReturn then [Returned(t.addrReturn)] else []
  }

  function Stamp(at: int, events: seq<Event>): seq<Entry> { seq(|events|, k requires 0 <= k < |events| => Entry(at, events[k])) }

  predicate Executing(st: State) {
    match st
    case Activate => true
    case WaitTrcd => true
    case IssueRead => true
    case ScRead => true
    case ScrEnd => true
    case ScrNlsn => true
    case IssueWrite => true
    case ScWrite => true
    case ScwrData => true
    case ScwrEnd => true
    case BlrAct => true
    case BlrIssue => true
    case BlrRead => true
    case BlwAct => true
    case BlwIssue => true
    case BlwWrite => true
    case _ => false
  }

  /** Recording starts when a command is latched and stands still once it is over. */
  function Record(tr: Trace, s: Registers, i: Inputs, t: Registers): Trace {
    if i.reset || Latches(s) then Trace([], 0, false)
    else if Executing(s.state) then
      Trace(tr.log + Stamp(tr.time + 1, Emitted(t)), tr.time + 1, tr.dropped || Drops(s, i))
    else tr
  }

  // ---------------------------------------------------------------- the recording in every state

  predicate At(tr: Trace, time: int, log: seq<Entry>) { tr.time == time && tr.log == log && !tr.dropped }

  predicate TraceFits(cfg: Config, s: Registers, tr: Trace) {
    var a := s.addr;
    match s.state
    case Activate => 0 <= s.actGap && (s.cnt == 0 ==> GapFits(s)) && At(tr, s.actGap, Opening(a, s.actGap))
    case BlrAct => 0 <= s.cnt <= 1 && At(tr, 8 - s.cnt, Opening(a, 8 - s.cnt))
    case BlwAct => 0 <= s.cnt <= 1 && At(tr, 8 - s.cnt, Opening(a, 8 - s.cnt))
    case WaitTrcd => if s.next.BlrIssue? || s.next.BlwIssue? then At(tr, 12 - s.cnt, Opening(a, BLOCK_BEATS))
                     else At(tr, 5 - s.cnt, Opening(a, SCALAR_BEATS))
    case IssueRead => At(tr, 6, Opening(a, SCALAR_BEATS))
    case ScRead => At(tr, cfg.readWait + 7 - s.cnt, ScalarRead(a))
    case ScrEnd => 0 <= s.cnt <= 8 && At(tr, cfg.readWait + 16 - s.cnt, ScalarRead(a) + Returns(a, cfg.readWait + 8, 9 - s.cnt))
    case BlrIssue => At(tr, 13, Opening(a, BLOCK_BEATS))
    case BlrRead => At(tr, cfg.readWait + 14 - s.cnt, BlockRead(a, s.sz))
    case ScrNlsn => At(tr, cfg.readWait + 15, BlockRead(a, s.sz))
    case IssueWrite => At(tr, 6, Opening(a, SCALAR_BEATS))
    case ScWrite => At(tr, 19 - s.cnt, ScalarWrite(a))
    case BlwIssue => 0 <= s.blk && At(tr, BlockStart(s.sz, s.blk), Opening(a, BLOCK_BEATS) + Blocks(a, s.sz, s.blk))
    case BlwWrite => 0 <= s.blk && At(tr, BlockStart(s.sz, s.blk) + 13 - s.cnt, BlockWrite(a, s.sz, s.blk))
    case ScwrData => DataFits(s, tr)
    case ScwrEnd =>
      if s.fromBlw then
        0 <= s.blk && At(tr, BlockStart(s.sz, s.blk) + 39 + 8 * s.sz - s.cnt, Opening(a, BLOCK_BEATS) + Blocks(a, s.sz, s.blk + 1))
      else
        At(tr, 45 - s.cnt, ScalarWrite(a) + Takes(20, 8))
    case _ => true
  }

  /** Only a block command waits in ACTIVATE. */
  predicate GapFits(s: Registers) {
    s.actGap <= ACT_GAP_MIN && (s.cmd != CODE_BLR && s.cmd != CODE_BLW ==> s.actGap == 1)
  }

  predicate DataFits(s: Registers, tr: Trace) {
    && 0 <= s.burst <= 7
    && if s.fromBlw then
      && 0 <= s.blk
      && s.burst == (if 8 * s.sz + 7 - s.cnt < 7 then 8 * s.sz + 7 - s.cnt else 7)
      && At(tr, BlockStart(s.sz, s.blk) + 21 + 8 * s.sz - s.cnt,
            BlockWrite(s.addr, s.sz, s.blk) + Takes(BlockStart(s.sz, s.blk) + 14, s.burst + 1))
    else
      s.burst == 7 - s.cnt && At(tr, 27 - s.cnt, ScalarWrite(s.addr) + Takes(20, s.burst + 1))
  }

  predicate LatchFits(s: Registers) {
    s.row == RowOf(s.addr) && s.bank == BankOf(s.addr) && s.col == ColOf(s.addr)
  }

  /** Once the command is over the recording is complete, until the next one is latched. */
  predicate Completed(cfg: Config, s: Registers, tr: Trace) {
    if tr.dropped then
      && 2 <= tr.time <= 7 && tr.log == Opening(s.addr, tr.time)
      && s.cmd != CODE_SCR && s.cmd != CODE_SCW && s.cmd != CODE_BLW
    else
      && tr.log == Expected(cfg, s.cmd, s.sz, s.addr) && tr.time == Duration(cfg, s.cmd, s.sz)
      && CODE_SCR <= s.cmd <= CODE_BLW
  }

  /** Holds in every reachable state; `haveAct` says that a command was ever latched. */
  predicate Traced(cfg: Config, s: Registers, tr: Trace) {
    && LatchFits(s)
    && (if Executing(s.state) then TraceFits(cfg, s, tr) else s.haveAct ==> Completed(cfg, s, tr))
  }

  // ---------------------------------------------------------------- one edge

  lemma StampOne(at: int, e: Event)
    ensures Stamp(at, []) == [] && Stamp(at, [e]) == [Entry(at, e)]
  {
  }

  lemma OpeningOneMore(a: Address, n: nat)
    ensures Opening(a, n) + [Entry(n + 1, Opened(BankOf(a), RowOf(a)))] == Opening(a, n + 1)
  {
  }

  lemma TakesOneMore(base: seq<Entry>, from: int, n: nat)
    ensures base + Takes(from, n) + [Entry(from + n, TookWord)] == base + Takes(from, n + 1)
    ensures base + Takes(from, 0) == base
  {
  }

  lemma ReturnsOneMore(base: seq<Entry>, a: Address, from: int, n: nat)
    ensures base + Returns(a, from, n) + [Entry(from + n, Returned(Tag(a, if n == 0 then 0 else n - 1)))] == base + Returns(a, from, n + 1)
    ensures base + Returns(a, from, 0) == base
  {
  }

  predicate Edges(cfg: Config, s: Registers, i: Inputs, t: Registers) {
    && FlowEdge(cfg, s, i, t) && CommandEdge(s, i, t) && TimerEdge(cfg, s, i, t)
    && PinEdge(cfg, s, t) && DataEdge(s, i, t)
  }

  predicate Fits(cfg: Config, s: Registers) {
    cfg.Valid() && CommandFits(s) && CountFits(cfg, s) && TimersFit(cfg, s) && BusHeld(s)
  }

  // What an edge adds to the recording, by what shows on the pins and strobes.

  lemma RecordNothing(tr: Trace, s: Registers, i: Inputs, t: Registers)
    requires Executing(s.state) && !i.reset && !t.getData && !t.putReturn
    requires t.bus == DESELECT
    ensures Record(tr, s, i, t) == Trace(tr.log, tr.time + 1, tr.dropped || Drops(s, i))
  {
    assert Emitted(t) == [];
    assert Stamp(tr.time + 1, []) == [];
  }

  lemma RecordPins(tr: Trace, s: Registers, i: Inputs, t: Registers, e: Event)
    requires Executing(s.state) && !i.reset && !t.getData && !t.putReturn && PinEvent(t) == [e]
    ensures Record(tr, s, i, t) == Trace(tr.log + [Entry(tr.time + 1, e)], tr.time + 1, tr.dropped || Drops(s, i))
  {
    assert Emitted(t) == [e];
    StampOne(tr.time + 1, e);
  }

  lemma RecordReturn(tr: Trace, s: Registers, i: Inputs, t: Registers)
    requires Executing(s.state) && !i.reset && t.bus == DESELECT && !t.getData && t.putReturn
    ensures Record(tr, s, i, t) ==
            Trace(tr.log + [Entry(tr.time + 1, Returned(t.addrReturn))], tr.time + 1, tr.dropped || Drops(s, i))
  {
    assert Emitted(t) == [Returned(t.addrReturn)];
    StampOne(tr.time + 1, Returned(t.addrReturn));
  }

  lemma RecordTake(tr: Trace, s: Registers, i: Inputs, t: Registers)
    requires Executing(s.state) && !i.reset && t.bus == DESELECT && t.getData && !t.putReturn
    ensures Record(tr, s, i, t) == Trace(tr.log + [Entry(tr.time + 1, TookWord)], tr.time + 1, tr.dropped || Drops(s, i))
  {
    assert Emitted(t) == [TookWord];
    StampOne(tr.time + 1, TookWord);
  }

  lemma LatchStays(s: Registers, i: Inputs, t: Registers)
    requires LatchFits(s) && DataEdge(s, i, t)
    ensures LatchFits(t)
  {
  }

  /** Where ACTIVATE leads. */
  predicate ActivateMoves(s: Registers, t: Registers, drops: bool) {
    if s.cnt == 1 then s.actGap == 0 && t.state.Activate? && t.cnt == 0 && t.actGap == 1 && !drops
    else if drops then t.state.Idle? && s.cmd != CODE_SCR && s.cmd != CODE_SCW && s.cmd != CODE_BLW
    else if s.cmd == CODE_SCR then t.state.WaitTrcd? && t.cnt == 3 && t.next.IssueRead?
    else if s.cmd == CODE_SCW then t.state.WaitTrcd? && t.cnt == 3 && t.next.IssueWrite?
    else
      && (s.cmd == CODE_BLR || s.cmd == CODE_BLW)
      && if s.actGap < ACT_GAP_MIN then t.state.Activate? && t.cnt == 0 && t.actGap == s.actGap + 1
         else t.cnt == 1 && t.state == if s.cmd == CODE_BLR then BlrAct else BlwAct
  }

  lemma ActivateFlow(cfg: Config, s: Registers, i: Inputs, t: Registers)
    requires CountFits(cfg, s) && TimersFit(cfg, s) && s.state.Activate? && (s.cnt == 0 ==> s.actGap <= ACT_GAP_MIN)
    requires FlowEdge(cfg, s, i, t) && t.next == NextTarget(s) && t.actGap == NextActGap(s, i)
    ensures ActivateMoves(s, t, Drops(s, i))
  {
  }

  lemma ActivateFits(cfg: Config, s: Registers, t: Registers, drops: bool, tr: Trace, next: Trace)
    requires s.state.Activate? && TraceFits(cfg, s, tr) && LatchFits(s) && ActivateMoves(s, t, drops)
    requires 0 <= s.cnt <= 1 && 0 <= s.actGap && (s.cnt == 0 ==> 0 < s.actGap)
    requires t.addr == s.addr && t.cmd == s.cmd && t.sz == s.sz && LatchFits(t)
    requires next == Trace(tr.log + [Entry(tr.time + 1, Opened(s.bank, s.row))], tr.time + 1, tr.dropped || drops)
    ensures Traced(cfg, t, next)
  {
    OpeningOneMore(s.addr, s.actGap);
  }

  lemma ActivateTraced(cfg: Config, s: Registers, i: Inputs, t: Registers, tr: Trace)
    requires Fits(cfg, s) && Edges(cfg, s, i, t) && !i.reset && Traced(cfg, s, tr) && s.state.Activate?
    ensures Traced(cfg, t, Record(tr, s, i, t))
  {
    RecordPins(tr, s, i, t, Opened(s.bank, s.row));
    LatchStays(s, i, t);
    ActivateFlow(cfg, s, i, t);
    ActivateFits(cfg, s, t, Drops(s, i), tr, Record(tr, s, i, t));
  }

  lemma BlockActTraced(cfg: Config, s: Registers, i: Inputs, t: Registers, tr: Trace)
    requires Fits(cfg, s) && Edges(cfg, s, i, t) && !i.reset && Traced(cfg, s, tr)
    requires s.state.BlrAct? || s.state.BlwAct?
    ensures Traced(cfg, t, Record(tr, s, i, t))
  {
    RecordPins(tr, s, i, t, Opened(s.bank, s.row));
    OpeningOneMore(s.addr, 8 - s.cnt);
  }

  lemma TrcdTraced(cfg: Config, s: Registers, i: Inputs, t: Registers, tr: Trace)
    requires Fits(cfg, s) && Edges(cfg, s, i, t) && !i.reset && Traced(cfg, s, tr) && s.state.WaitTrcd?
    ensures Traced(cfg, t, Record(tr, s, i, t))
  {
    RecordNothing(tr, s, i, t);
  }

  lemma OpeningTraced(cfg: Config, s: Registers, i: Inputs, t: Registers, tr: Trace)
    requires Fits(cfg, s) && Edges(cfg, s, i, t) && !i.reset && Traced(cfg, s, tr)
    requires s.state.BlrAct? || s.state.BlwAct? || s.state.WaitTrcd?
    ensures Traced(cfg, t, Record(tr, s, i, t))
  {
    if s.state.WaitTrcd? {
      TrcdTraced(cfg, s, i, t, tr);
    } else {
      BlockActTraced(cfg, s, i, t, tr);
    }
  }

  lemma IssueTraced(cfg: Config, s: Registers, i: Inputs, t: Registers, tr: Trace)
    requires Fits(cfg, s) && Edges(cfg, s, i, t) && !i.reset && Traced(cfg, s, tr)
    requires s.state.IssueRead? || s.state.IssueWrite?
    ensures Traced(cfg, t, Record(tr, s, i, t))
  {
    RecordPins(tr, s, i, t, if s.state.IssueRead? then ReadAt(s.bank, ColumnPins(s.col, true)) else WroteAt(s.bank, ColumnPins(s.col, true)));
  }

  lemma FirstBlockColumn(col: int, flag: bool)
    ensures ColumnPins(BlockColumn(col, 0), flag) == ColumnPins(col, flag)
  {
  }

  lemma BlockReadIssueTraced(cfg: Config, s: Registers, i: Inputs, t: Registers, tr: Trace)
    requires Fits(cfg, s) && Edges(cfg, s, i, t) && !i.reset && Traced(cfg, s, tr) && s.state.BlrIssue?
    ensures Traced(cfg, t, Record(tr, s, i, t))
  {
    RecordPins(tr, s, i, t, ReadAt(s.bank, ColumnPins(BlockColumn(s.col, s.blk), s.blk == s.sz)));
    FirstBlockColumn(s.col, s.sz == 0);
  }

  lemma BlockIssueFits(cfg: Config, s: Registers, t: Registers, tr: Trace, next: Trace)
    requires s.state.BlwIssue? && TraceFits(cfg, s, tr) && LatchFits(s)
    requires t.state.BlwWrite? && t.cnt == WRITE_WAIT && t.addr == s.addr && t.sz == s.sz && t.blk == s.blk
    requires next == Trace(tr.log + [Entry(tr.time + 1, WroteAt(s.bank, ColumnPins(BlockColumn(s.col, s.blk), s.blk == s.sz)))],
                           tr.time + 1, false)
    ensures TraceFits(cfg, t, next)
  {
  }

  lemma BlockIssueTraced(cfg: Config, s: Registers, i: Inputs, t: Registers, tr: Trace)
    requires Fits(cfg, s) && Edges(cfg, s, i, t) && !i.reset && Traced(cfg, s, tr) && s.state.BlwIssue?
    ensures Traced(cfg, t, Record(tr, s, i, t))
  {
    RecordPins(tr, s, i, t, WroteAt(s.bank, ColumnPins(BlockColumn(s.col, s.blk), s.blk == s.sz)));
    LatchStays(s, i, t);
    BlockIssueFits(cfg, s, t, tr, Record(tr, s, i, t));
  }

  lemma BlockReadTraced(cfg: Config, s: Registers, i: Inputs, t: Registers, tr: Trace)
    requires Fits(cfg, s) && Edges(cfg, s, i, t) && !i.reset && Traced(cfg, s, tr)
    requires s.state.BlrRead? || s.state.ScrNlsn?
    ensures Traced(cfg, t, Record(tr, s, i, t))
  {
    RecordNothing(tr, s, i, t);
  }

  lemma WaitTraced(cfg: Config, s: Registers, i: Inputs, t: Registers, tr: Trace)
    requires Fits(cfg, s) && Edges(cfg, s, i, t) && !i.reset && Traced(cfg, s, tr)
    requires s.cnt > 0 && (s.state.ScRead? || s.state.ScWrite? || s.state.BlwWrite?)
    ensures Traced(cfg, t, Record(tr, s, i, t))
  {
    RecordNothing(tr, s, i, t);
  }

  // The read burst.

  lemma CountTags(s: Registers)
    requires s.state.ScrEnd? && 0 < s.cnt <= 8
    ensures NextAddrReturn(s) == Tag(s.addr, 8 - s.cnt)
  {
    assert (8 - s.cnt) % 8 == 8 - s.cnt;
  }

  lemma FirstTag(s: Registers)
    requires s.state.ScRead? && s.cnt == 0
    ensures NextAddrReturn(s) == Tag(s.addr, 0)
  {
  }

  lemma ReturnsGrow(cfg: Config, s: Registers, t: Registers, tr: Trace, next: Trace)
    requires (s.state.ScRead? && s.cnt == 0) || (s.state.ScrEnd? && 0 < s.cnt <= 8)
    requires TraceFits(cfg, s, tr) && t.state.ScrEnd? && t.addr == s.addr
    requires t.cnt == if s.state.ScRead? then 8 else s.cnt - 1
    requires next == Trace(tr.log + [Entry(tr.time + 1, Returned(Tag(s.addr, if s.state.ScRead? then 0 else 8 - s.cnt)))], tr.time + 1, false)
    ensures TraceFits(cfg, t, next)
  {
    ReturnsOneMore(ScalarRead(s.addr), s.addr, cfg.readWait + 8, if s.state.ScRead? then 0 else 9 - s.cnt);
    if s.state.ScRead? {
      ReturnsOneMore(ScalarRead(s.addr), s.addr, cfg.readWait + 8, 0);
    }
  }

  lemma ReturnTraced(cfg: Config, s: Registers, i: Inputs, t: Registers, tr: Trace)
    requires Fits(cfg, s) && Edges(cfg, s, i, t) && !i.reset && Traced(cfg, s, tr)
    requires (s.state.ScRead? && s.cnt == 0) || (s.state.ScrEnd? && s.cnt > 0)
    ensures Traced(cfg, t, Record(tr, s, i, t))
  {
    RecordReturn(tr, s, i, t);
    if s.state.ScRead? {
      FirstTag(s);
    } else {
      CountTags(s);
    }
    LatchStays(s, i, t);
    ReturnsGrow(cfg, s, t, tr, Record(tr, s, i, t));
  }

  lemma ReadEndTraced(cfg: Config, s: Registers, i: Inputs, t: Registers, tr: Trace)
    requires Fits(cfg, s) && Edges(cfg, s, i, t) && !i.reset && Traced(cfg, s, tr) && s.state.ScrEnd? && s.cnt == 0
    ensures Traced(cfg, t, Record(tr, s, i, t))
  {
    RecordNothing(tr, s, i, t);
  }

  // The write burst.

  lemma TakesGrow(s: Registers, t: Registers, tr: Trace, next: Trace)
    requires DataFits(s, tr) && s.burst < 7 && 0 < s.cnt
    requires t.addr == s.addr && t.sz == s.sz && t.blk == s.blk && t.fromBlw == s.fromBlw
    requires t.cnt == s.cnt - 1 && t.burst == s.burst + 1
    requires next == Trace(tr.log + [Entry(tr.time + 1, TookWord)], tr.time + 1, false)
    ensures DataFits(t, next)
  {
    if s.fromBlw {
      TakesOneMore(BlockWrite(s.addr, s.sz, s.blk), BlockStart(s.sz, s.blk) + 14, s.burst + 1);
    } else {
      TakesOneMore(ScalarWrite(s.addr), 20, s.burst + 1);
    }
  }

  lemma FirstTakeFits(s: Registers, t: Registers, tr: Trace, next: Trace, cfg: Config)
    requires s.cnt == 0 && (s.state.ScWrite? || s.state.BlwWrite?) && TraceFits(cfg, s, tr)
    requires t.addr == s.addr && t.sz == s.sz && t.blk == s.blk && t.fromBlw == s.state.BlwWrite? && t.burst == 0
    requires t.cnt == if s.state.ScWrite? then 7 else BlockDataWait(s.sz)
    requires next == Trace(tr.log + [Entry(tr.time + 1, TookWord)], tr.time + 1, false)
    ensures DataFits(t, next)
  {
    if s.state.ScWrite? {
      TakesOneMore(ScalarWrite(s.addr), 20, 0);
    } else {
      TakesOneMore(BlockWrite(s.addr, s.sz, s.blk), BlockStart(s.sz, s.blk) + 14, 0);
    }
  }

  lemma FirstTakeTraced(cfg: Config, s: Registers, i: Inputs, t: Registers, tr: Trace)
    requires Fits(cfg, s) && Edges(cfg, s, i, t) && !i.reset && Traced(cfg, s, tr)
    requires s.cnt == 0 && (s.state.ScWrite? || s.state.BlwWrite?)
    ensures Traced(cfg, t, Record(tr, s, i, t))
  {
    RecordTake(tr, s, i, t);
    LatchStays(s, i, t);
    FirstTakeFits(s, t, tr, Record(tr, s, i, t), cfg);
  }

  lemma TakeTraced(cfg: Config, s: Registers, i: Inputs, t: Registers, tr: Trace)
    requires Fits(cfg, s) && Edges(cfg, s, i, t) && !i.reset && Traced(cfg, s, tr) && s.state.ScwrData? && s.burst < 7
    ensures Traced(cfg, t, Record(tr, s, i, t))
  {
    RecordTake(tr, s, i, t);
    LatchStays(s, i, t);
    TakesGrow(s, t, tr, Record(tr, s, i, t));
  }

  lemma BlockComplete(a: Address, sz: Size, j: nat)
    ensures BlockWrite(a, sz, j) + Takes(BlockStart(sz, j) + 14, 8) == Opening(a, BLOCK_BEATS) + Blocks(a, sz, j + 1)
  {
    assert BlockWrite(a, sz, j) + Takes(BlockStart(sz, j) + 14, 8) == Opening(a, BLOCK_BEATS) + (Blocks(a, sz, j) + Block(a, sz, j));
  }

  /** After the eighth request the data phase only runs out its count. */
  lemma DataTailTraced(cfg: Config, s: Registers, i: Inputs, t: Registers, tr: Trace)
    requires Fits(cfg, s) && Edges(cfg, s, i, t) && !i.reset && Traced(cfg, s, tr) && s.state.ScwrData? && s.burst == 7
    ensures Traced(cfg, t, Record(tr, s, i, t))
  {
    RecordNothing(tr, s, i, t);
    LatchStays(s, i, t);
    if s.cnt == 0 {
      DataEndFits(cfg, s, t, tr, Record(tr, s, i, t));
    } else {
      DataIdles(s, t, tr, Record(tr, s, i, t));
    }
  }

  lemma DataIdles(s: Registers, t: Registers, tr: Trace, next: Trace)
    requires DataFits(s, tr) && s.burst == 7 && s.cnt > 0
    requires t.addr == s.addr && t.sz == s.sz && t.blk == s.blk && t.fromBlw == s.fromBlw
    requires t.cnt == s.cnt - 1 && t.burst == 7
    requires next == Trace(tr.log, tr.time + 1, false)
    ensures DataFits(t, next)
  {
  }

  lemma DataEndFits(cfg: Config, s: Registers, t: Registers, tr: Trace, next: Trace)
    requires DataFits(s, tr) && s.burst == 7 && s.cnt == 0
    requires t.state.ScwrEnd? && t.cnt == WRITE_TAIL
    requires t.addr == s.addr && t.sz == s.sz && t.blk == s.blk && t.fromBlw == s.fromBlw
    requires next == Trace(tr.log, tr.time + 1, false)
    ensures TraceFits(cfg, t, next)
  {
    if s.fromBlw {
      BlockComplete(s.addr, s.sz, s.blk);
    }
  }

  lemma NextBlockStart(sz: Size, j: int)
    ensures BlockStart(sz, j + 1) == BlockStart(sz, j) + 40 + 8 * sz
  {
  }

  lemma WriteEndTraced(cfg: Config, s: Registers, i: Inputs, t: Registers, tr: Trace)
    requires Fits(cfg, s) && Edges(cfg, s, i, t) && !i.reset && Traced(cfg, s, tr) && s.state.ScwrEnd?
    ensures Traced(cfg, t, Record(tr, s, i, t))
  {
    RecordNothing(tr, s, i, t);
    LatchStays(s, i, t);
    if s.cnt == 0 {
      WriteEndFits(cfg, s, i, t, tr, Record(tr, s, i, t));
    }
  }

  /** The end of the write tail: another sub-burst, or the whole command is on record. */
  lemma WriteEndFits(cfg: Config, s: Registers, i: Inputs, t: Registers, tr: Trace, next: Trace)
    requires CommandFits(s) && s.state.ScwrEnd? && s.cnt == 0 && TraceFits(cfg, s, tr)
    requires t.state == NextState(cfg, s, i) && t.blk == NextBlk(s, i)
    requires t.addr == s.addr && t.sz == s.sz && t.cmd == s.cmd
    requires next == Trace(tr.log, tr.time + 1, false)
    ensures if t.state.Idle? then Completed(cfg, t, next) else t.state.BlwIssue? && TraceFits(cfg, t, next)
  {
    if s.fromBlw {
      BlockEndFits(cfg, s, i, t, tr, next);
    }
  }

  lemma BlockEndFits(cfg: Config, s: Registers, i: Inputs, t: Registers, tr: Trace, next: Trace)
    requires CommandFits(s) && s.state.ScwrEnd? && s.cnt == 0 && s.fromBlw && TraceFits(cfg, s, tr)
    requires t.state == NextState(cfg, s, i) && t.blk == NextBlk(s, i)
    requires t.addr == s.addr && t.sz == s.sz && t.cmd == s.cmd
    requires next == Trace(tr.log, tr.time + 1, false)
    ensures if t.state.Idle? then Completed(cfg, t, next) else t.state.BlwIssue? && TraceFits(cfg, t, next)
  {
    NextBlockStart(s.sz, s.blk);
    BlockEndFlow(cfg, s, i, t);
    BlocksOnRecord(cfg, s, t, next);
  }

  lemma BlockEndFlow(cfg: Config, s: Registers, i: Inputs, t: Registers)
    requires CommandFits(s) && s.state.ScwrEnd? && s.cnt == 0 && s.fromBlw
    requires t.state == NextState(cfg, s, i) && t.blk == NextBlk(s, i)
    ensures if s.blk < s.sz then t.state.BlwIssue? && t.blk == s.blk + 1 else t.state.Idle? && s.blk == s.sz
    ensures s.cmd == CODE_BLW && 0 <= s.blk
  {
  }

  lemma BlocksOnRecord(cfg: Config, s: Registers, t: Registers, next: Trace)
    requires s.cmd == CODE_BLW && 0 <= s.blk && t.addr == s.addr && t.sz == s.sz && t.cmd == s.cmd
    requires if s.blk < s.sz then t.state.BlwIssue? && t.blk == s.blk + 1 else t.state.Idle? && s.blk == s.sz
    requires At(next, BlockStart(s.sz, s.blk + 1), Opening(s.addr, BLOCK_BEATS) + Blocks(s.addr, s.sz, s.blk + 1))
    ensures if t.state.Idle? then Completed(cfg, t, next) else TraceFits(cfg, t, next)
  {
  }

  lemma OnlyLatchingStarts(a: State, b: State)
    requires Arrow(a, b) && !Executing(a) && a != GetCmd
    ensures !Executing(b)
  {
  }

  lemma RestFlow(cfg: Config, s: Registers, i: Inputs, t: Registers)
    requires CommandFits(s) && t.state == NextState(cfg, s, i) && !Executing(s.state)
    ensures if Latches(s) then t.state.Activate? else !Executing(t.state)
  {
    if !s.state.GetCmd? {
      EdgeFollowsArrow(cfg, s, i, t);
      OnlyLatchingStarts(s.state, t.state);
    }
  }

  lemma RestTraced(cfg: Config, s: Registers, i: Inputs, t: Registers, tr: Trace)
    requires Fits(cfg, s) && Edges(cfg, s, i, t) && !i.reset && Traced(cfg, s, tr) && !Executing(s.state)
    ensures Traced(cfg, t, Record(tr, s, i, t))
  {
    RestFlow(cfg, s, i, t);
    assert !EntersBlockAct(s, i);
  }

  lemma ReadBurstTraced(cfg: Config, s: Registers, i: Inputs, t: Registers, tr: Trace)
    requires Fits(cfg, s) && Edges(cfg, s, i, t) && !i.reset && Traced(cfg, s, tr)
    requires s.state.ScRead? || s.state.ScrEnd?
    ensures Traced(cfg, t, Record(tr, s, i, t))
  {
    if (s.state.ScRead?) == (s.cnt == 0) {
      ReturnTraced(cfg, s, i, t, tr);
    } else if s.state.ScRead? {
      WaitTraced(cfg, s, i, t, tr);
    } else {
      ReadEndTraced(cfg, s, i, t, tr);
    }
  }

  lemma ReadStepTraced(cfg: Config, s: Registers, i: Inputs, t: Registers, tr: Trace)
    requires Fits(cfg, s) && Edges(cfg, s, i, t) && !i.reset && Traced(cfg, s, tr) && PhaseOf(s.state) == Reading
    ensures Traced(cfg, t, Record(tr, s, i, t))
  {
    if s.state.ScRead? || s.state.ScrEnd? {
      ReadBurstTraced(cfg, s, i, t, tr);
    } else if s.state.BlrRead? || s.state.ScrNlsn? {
      BlockReadTraced(cfg, s, i, t, tr);
    } else if s.state.IssueRead? {
      IssueTraced(cfg, s, i, t, tr);
    } else {
      BlockReadIssueTraced(cfg, s, i, t, tr);
    }
  }

  lemma WriteStepTraced(cfg: Config, s: Registers, i: Inputs, t: Registers, tr: Trace)
    requires Fits(cfg, s) && Edges(cfg, s, i, t) && !i.reset && Traced(cfg, s, tr) && PhaseOf(s.state) == Writing
    ensures Traced(cfg, t, Record(tr, s, i, t))
  {
    if s.state.ScwrData? {
      DataStepTraced(cfg, s, i, t, tr);
    } else if s.state.ScWrite? || s.state.BlwWrite? {
      WriteWaitTraced(cfg, s, i, t, tr);
    } else {
      WriteEdgeTraced(cfg, s, i, t, tr);
    }
  }

  lemma WriteEdgeTraced(cfg: Config, s: Registers, i: Inputs, t: Registers, tr: Trace)
    requires Fits(cfg, s) && Edges(cfg, s, i, t) && !i.reset && Traced(cfg, s, tr)
    requires s.state.IssueWrite? || s.state.BlwIssue? || s.state.ScwrEnd?
    ensures Traced(cfg, t, Record(tr, s, i, t))
  {
    if s.state.IssueWrite? {
      IssueTraced(cfg, s, i, t, tr);
    } else if s.state.BlwIssue? {
      BlockIssueTraced(cfg, s, i, t, tr);
    } else {
      WriteEndTraced(cfg, s, i, t, tr);
    }
  }

  lemma DataStepTraced(cfg: Config, s: Registers, i: Inputs, t: Registers, tr: Trace)
    requires Fits(cfg, s) && Edges(cfg, s, i, t) && !i.reset && Traced(cfg, s, tr) && s.state.ScwrData?
    ensures Traced(cfg, t, Record(tr, s, i, t))
  {
    if s.burst < 7 {
      TakeTraced(cfg, s, i, t, tr);
    } else {
      DataTailTraced(cfg, s, i, t, tr);
    }
  }

  lemma WriteWaitTraced(cfg: Config, s: Registers, i: Inputs, t: Registers, tr: Trace)
    requires Fits(cfg, s) && Edges(cfg, s, i, t) && !i.reset && Traced(cfg, s, tr) && (s.state.ScWrite? || s.state.BlwWrite?)
    ensures Traced(cfg, t, Record(tr, s, i, t))
  {
    if s.cnt == 0 {
      FirstTakeTraced(cfg, s, i, t, tr);
    } else {
      WaitTraced(cfg, s, i, t, tr);
    }
  }

  lemma StepTraced(cfg: Config, s: Registers, i: Inputs, tr: Trace)
    requires cfg.Valid() && Inv(cfg, s) && !i.reset && Traced(cfg, s, tr)
    ensures Traced(cfg, Step(cfg, s, i), Record(tr, s, i, Step(cfg, s, i)))
  {
    var t := Step(cfg, s, i);
    StepEdges(cfg, s, i);
    if !Executing(s.state) {
      RestTraced(cfg, s, i, t, tr);
    } else if PhaseOf(s.state) == Reading {
      ReadStepTraced(cfg, s, i, t, tr);
    } else if PhaseOf(s.state) == Writing {
      WriteStepTraced(cfg, s, i, t, tr);
    } else if s.state.Activate? {
      ActivateTraced(cfg, s, i, t, tr);
    } else {
      OpeningTraced(cfg, s, i, t, tr);
    }
  }

  // ---------------------------------------------------------------- whole runs

  datatype Recording = Recording(engine: Registers, trace: Trace)

  function RecordStep(cfg: Config, r: Recording, i: Inputs): Recording {
    var t := Step(cfg, r.engine, i);
    Recording(t, Record(r.trace, r.engine, i, t))
  }

  function RecordRun(cfg: Config, start: Registers, inputs: seq<Inputs>): Recording {
    if inputs == [] then Recording(start, Trace([], 0, false))
    else RecordStep(cfg, RecordRun(cfg, start, inputs[..|inputs| - 1]), inputs[|inputs| - 1])
  }

  predicate RecordingFits(cfg: Config, r: Recording) { Inv(cfg, r.engine) && Traced(cfg, r.engine, r.trace) }

  lemma ResetTraced(cfg: Config, s: Registers, tr: Trace)
    requires cfg.Valid()
    ensures RecordingFits(cfg, Recording(Reset(cfg, s), tr))
  {
    ResetKeepsInv(cfg, s);
  }

  lemma RecordStepFits(cfg: Config, r: Recording, i: Inputs)
    requires cfg.Valid() && RecordingFits(cfg, r)
    ensures RecordingFits(cfg, RecordStep(cfg, r, i))
  {
    if i.reset {
      ResetTraced(cfg, r.engine, RecordStep(cfg, r, i).trace);
    } else {
      StepKeepsInv(cfg, r.engine, i);
      StepTraced(cfg, r.engine, i, r.trace);
    }
  }

  lemma {:induction false} RunTraced(cfg: Config, start: Registers, inputs: seq<Inputs>)
    requires cfg.Valid() && start == Reset(cfg, start)
    ensures RecordingFits(cfg, RecordRun(cfg, start, inputs))
  {
    if inputs == [] {
      ResetTraced(cfg, start, Trace([], 0, false));
    } else {
      RunTraced(cfg, start, inputs[..|inputs| - 1]);
      RecordStepFits(cfg, RecordRun(cfg, start, inputs[..|inputs| - 1]), inputs[|inputs| - 1]);
    }
  }

  /**
   * On every run from reset, whatever the inputs: whenever the engine is back in IDLE, the recording of
   * the last command is exactly its specified trace and took exactly its specified time, or the command
   * was dropped right after its ACTIVATE, which never happens to a scalar command or a block write.
   */
  lemma CommandsRunAsSpecified(cfg: Config, start: Registers, inputs: seq<Inputs>)
    requires cfg.Valid() && start == Reset(cfg, start)
    ensures var r := RecordRun(cfg, start, inputs);
      r.engine.state.Idle? && r.engine.haveAct ==> Completed(cfg, r.engine, r.trace)
  {
    RunTraced(cfg, start, inputs);
  }
}
