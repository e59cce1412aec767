/**
 * Scalar reads and writes through FIFOs, engines, pins and memory latencies refine an abstract memory:
 * whatever the interleaving with refresh, DLL changes and low-power modes, each store fills its eight cells
 * and the first word the host sees for each load is the content of its cell.
 */
module ScalarTraffic {
  import opened DdrBus
  import opened Fifo
  import opened SimpleMem
  import opened ProtocolEngine
  import opened EngineInvariant
  import opened ScalarBurst
  import Controller
  import Order = CommandOrder
  import Trace = CommandTrace
  import Core
  import System

  // ---------------------------------------------------------------- the abstract memory

  datatype Op = Load(addr: Address) | Store(addr: Address, word: Word)

  /** The device drops all but nine column bits. */
  function Place(a: Address): Burst { Burst(RowOf(a), BankOf(a), ColOf(a) % 512) }

  /** The first of the eight words a store writes. */
  function BaseOf(a: Address): nat { WordIndex(RowOf(a), BankOf(a), ColOf(a) % 512) }

  function Effect(cells: seq<Word>, op: Op): (r: seq<Word>)
    requires |cells| > 0
    ensures |r| == |cells|
  {
    match op
    case Load(_) => cells
    case Store(a, w) => Fill(cells, BaseOf(a), BURST, w)
  }

  /** The memory after executing the operations one by one. */
  function Contents(cells: seq<Word>, ops: seq<Op>): (r: seq<Word>)
    requires |cells| > 0
    ensures |r| == |cells|
  {
    if ops == [] then cells else Effect(Contents(cells, ops[..|ops| - 1]), ops[|ops| - 1])
  }

  /** What the loads among them return. */
  function Answers(mc: SimpleMem.Config, cells: seq<Word>, ops: seq<Op>): seq<Controller.Return>
    requires |cells| == mc.depth > 0
  {
    if ops == [] then []
    else
      var before := ops[..|ops| - 1];
      var op := ops[|ops| - 1];
      Answers(mc, cells, before)
      + if op.Load? then [Controller.Return(op.addr, Contents(cells, before)[CellOf(mc, Place(op.addr))])] else []
  }

  /** The words of the stores among some operations. */
  function StoreWords(ops: seq<Op>): seq<Word> {
    if ops == [] then [] else (if ops[0].Store? then [ops[0].word] else []) + StoreWords(ops[1..])
  }

  lemma {:induction false} StoreWordsAppend(ops: seq<Op>, op: Op)
    ensures StoreWords(ops + [op]) == StoreWords(ops) + if op.Store? then [op.word] else []
  {
    if ops == [] {
      assert ([] + [op])[1..] == [];
    } else {
      StoreWordsAppend(ops[1..], op);
      assert (ops + [op])[1..] == ops[1..] + [op];
    }
  }

  // ---------------------------------------------------------------- the host's view

  /**
   * Bookkeeping beside the system: the operations accepted, split into those done and those outstanding, and
   * what the host reads off RADDR and DOUT in the first cycle of every VALIDOUT pulse.
   */
  datatype Ledger = Ledger(accepted: seq<Op>, retired: seq<Op>, outstanding: seq<Op>, observed: seq<Controller.Return>, wasValid: bool)

  const START := Ledger([], [], [], [], false)

  function OpOf(h: Controller.Host): Op {
    if h.request.cmd == CODE_SCW then Store(h.request.addr, h.din) else Load(h.request.addr)
  }

  /** The cycle in which a load's first word is seen, or a store's burst is committed. */
  predicate Retires(s: Registers) { (s.state.ScrEnd? && s.cnt == 5) || (s.state.ScwrData? && s.cnt == 0) }

  function Track(g: Ledger, c: Controller.State, h: Controller.Host): Ledger {
    var done := Retires(c.core.engine) && g.outstanding != [];
    var added := if Controller.Accepts(c, h) then [OpOf(h)] else [];
    Ledger(g.accepted + added,
           if done then g.retired + [g.outstanding[0]] else g.retired,
           (if done then g.outstanding[1..] else g.outstanding) + added,
           if c.validOut && !g.wasValid then g.observed + [c.readBack.out] else g.observed,
           c.validOut)
  }

  /**
   * The host fetches all the time, enqueues scalar commands only, puts the word of a store together with its
   * command, and does so once the previous store is done. Loads may be queued without limit, and low-power
   * and DLL requests come as they like.
   */
  predicate Disciplined(c: Controller.State, g: Ledger, h: Controller.Host) {
    && !h.reset && h.fetching
    && (h.cmdPut ==> h.request.cmd == CODE_SCR || h.request.cmd == CODE_SCW)
    && (h.dataPut <==> Controller.Accepts(c, h) && h.request.cmd == CODE_SCW)
    && (h.dataPut ==> StoreWords(g.outstanding) == [])
  }

  // ---------------------------------------------------------------- one edge of the whole system

  predicate EngineEdges(cfg: ProtocolEngine.Config, s: Registers, i: Inputs, t: Registers) {
    && FlowEdge(cfg, s, i, t) && CommandEdge(s, i, t) && TimerEdge(cfg, s, i, t)
    && DataEdge(s, i, t) && DriveEdge(cfg, s, i, t)
  }

  predicate QueueEdges(c: Controller.State, h: Controller.Host, captured: Word, d: Controller.State) {
    var s := c.core.engine;
    && d.commands == Clocked(Controller.COMMAND_DEPTH, c.commands, Controller.Accepts(c, h), h.request, s.getCmd)
    && d.data == Clocked(Controller.DATA_DEPTH, c.data, h.dataPut, h.din, s.getData)
    && d.readBack == Clocked(Controller.RETURN_DEPTH, c.readBack, s.putReturn, Controller.Return(s.addrReturn, captured), h.fetching)
    && d.fetchPop == (h.fetching && c.readBack.items != [])
    && d.validOut == c.fetchPop
  }

  predicate Moved(cfg: System.Config, x: System.State, cycle: System.Cycle, y: System.State) {
    && EngineEdges(cfg.core.engine, x.controller.core.engine, Controller.EngineWires(x.controller, cycle.host), y.controller.core.engine)
    && QueueEdges(x.controller, cycle.host, System.Captured(x, cycle.noise), y.controller)
    && y.controller.core == Core.Step(cfg.core, x.controller.core, Controller.CoreInputs(x.controller, cycle.host))
    && y.mem == if x.Valid(cfg) then SimpleMem.Step(cfg.mem, x.mem, Core.Pads(x.controller.core), System.DqLines(x)) else x.mem
  }

  lemma StepEdgesOf(cfg: System.Config, x: System.State, cycle: System.Cycle)
    requires x.Valid(cfg) && !cycle.host.reset
    ensures var y := System.Step(cfg, x, cycle); Moved(cfg, x, cycle, y)
  {
    var wires := Controller.EngineWires(x.controller, cycle.host);
    assert Core.EngineInputs(x.controller.core, Controller.CoreInputs(x.controller, cycle.host)) == wires;
    StepEdges(cfg.core.engine, x.controller.core.engine, wires);
  }

  // ---------------------------------------------------------------- strobes

  /** The engine's data strobes are up in exactly one state each. */
  predicate StrobesFit(s: Registers) {
    && (s.getData <==> s.state.ScwrData?) && (s.driveDq <==> s.state.ScwrData?)
    && (s.putReturn <==> s.state.ScrEnd?)
    && (s.state.ScwrData? ==> !s.fromBlw && s.burst == 7 - s.cnt)
    && (s.state.ScrEnd? && s.cnt >= 7 ==> s.addrReturn == s.addr)
    && Trace.LatchFits(s)
  }

  lemma EdgeKeepsBurstCount(cfg: ProtocolEngine.Config, s: Registers, i: Inputs, t: Registers)
    requires cfg.Valid() && CommandFits(s) && CountFits(cfg, s) && ScalarOnly(s) && StrobesFit(s)
    requires FlowEdge(cfg, s, i, t) && t.fromBlw == NextFromBlw(s) && t.burst == NextBurst(s) && t.state.ScwrData?
    ensures !t.fromBlw && t.burst == 7 - t.cnt
  {
    WriteFlow(cfg, s, i, t);
  }

  lemma EdgeKeepsFirstTag(cfg: ProtocolEngine.Config, s: Registers, i: Inputs, t: Registers)
    requires cfg.Valid() && CommandFits(s) && CountFits(cfg, s) && ScalarOnly(s) && StrobesFit(s)
    requires FlowEdge(cfg, s, i, t) && DataEdge(s, i, t) && t.state.ScrEnd? && t.cnt >= 7
    ensures t.addrReturn == t.addr
  {
    ReadFlow(cfg, s, i, t);
    if s.state.ScrEnd? && s.cnt == 8 {
      Trace.CountTags(s);
    }
  }

  lemma EdgeKeepsStrobes(cfg: ProtocolEngine.Config, s: Registers, i: Inputs, t: Registers)
    requires cfg.Valid() && CommandFits(s) && CountFits(cfg, s) && ScalarOnly(s) && StrobesFit(s)
    requires EngineEdges(cfg, s, i, t)
    ensures StrobesFit(t)
  {
    StrobeFlow(cfg, s, i, t);
    Trace.LatchStays(s, i, t);
    if t.state.ScwrData? {
      EdgeKeepsBurstCount(cfg, s, i, t);
    }
    if t.state.ScrEnd? && t.cnt >= 7 {
      EdgeKeepsFirstTag(cfg, s, i, t);
    }
  }

  lemma StrobeFlow(cfg: ProtocolEngine.Config, s: Registers, i: Inputs, t: Registers)
    requires CommandFits(s) && CountFits(cfg, s) && ScalarOnly(s) && StrobesFit(s) && EngineEdges(cfg, s, i, t)
    ensures TakesData(s) <==> t.state.ScwrData?
    ensures DrivesDq(s) <==> t.state.ScwrData?
    ensures PutsReturn(s) <==> t.state.ScrEnd?
  {
    if Trace.Executing(s.state) {
      WriteStrobes(cfg, s, i, t);
      ReadStrobe(cfg, s, i, t);
    } else {
      Trace.RestFlow(cfg, s, i, t);
    }
  }

  lemma WriteStrobes(cfg: ProtocolEngine.Config, s: Registers, i: Inputs, t: Registers)
    requires CommandFits(s) && CountFits(cfg, s) && ScalarOnly(s) && StrobesFit(s) && t.state == NextState(cfg, s, i)
    requires Trace.Executing(s.state)
    ensures TakesData(s) <==> t.state.ScwrData?
    ensures DrivesDq(s) <==> t.state.ScwrData?
  {
  }

  lemma ReadStrobe(cfg: ProtocolEngine.Config, s: Registers, i: Inputs, t: Registers)
    requires CommandFits(s) && CountFits(cfg, s) && ScalarOnly(s) && t.state == NextState(cfg, s, i) && Trace.Executing(s.state)
    ensures PutsReturn(s) <==> t.state.ScrEnd?
  {
  }

  // ---------------------------------------------------------------- the return path

  function FirstWord(mc: SimpleMem.Config, s: Registers, m: Memory): Controller.Return
    requires m.Valid(mc)
  {
    Controller.Return(s.addr, m.cells[CellOf(mc, Target(s))])
  }

  /** The tail of a VALIDOUT pulse, ever shorter: no pulse begins out of it. */
  predicate Fades(c: Controller.State, wasValid: bool, level: int) {
    var waiting := c.readBack.items;
    && |waiting| <= 1
    && (waiting != [] ==> c.fetchPop && level < 1)
    && (c.fetchPop ==> c.validOut && level < 2)
    && (c.validOut ==> wasValid && level < 3)
    && (wasValid ==> level < 4)
  }

  predicate PulseFits(mc: SimpleMem.Config, c: Controller.State, m: Memory, wasValid: bool)
    requires m.Valid(mc)
  {
    var s := c.core.engine;
    var waiting := c.readBack.items;
    if s.cnt == 8 then Fades(c, wasValid, 4)
    else if s.cnt == 7 then |waiting| == 1 && !c.fetchPop && !c.validOut && !wasValid
    else if s.cnt == 6 then waiting == [FirstWord(mc, s, m)] && c.fetchPop && !c.validOut && !wasValid
    else if s.cnt == 5 then |waiting| == 1 && c.readBack.out == FirstWord(mc, s, m) && c.fetchPop && c.validOut && !wasValid
    else |waiting| == 1 && c.fetchPop && c.validOut && wasValid
  }

  predicate ReturnFits(mc: SimpleMem.Config, c: Controller.State, m: Memory, wasValid: bool)
    requires m.Valid(mc)
  {
    var s := c.core.engine;
    if s.state.ScrEnd? then PulseFits(mc, c, m, wasValid)
    else if s.state.GetCmd? then Fades(c, wasValid, 3 - s.cnt)
    else Fades(c, wasValid, if Trace.Executing(s.state) then 4 else 0)
  }

  /** In the burst's second cycle the device's first word is on the lines. */
  lemma FirstWordCaptured(cfg: System.Config, x: System.State, noise: Word)
    requires x.Valid(cfg)
    requires ReadFits(cfg.core.engine, cfg.mem, x.controller.core.engine, x.mem)
    requires x.controller.core.engine.state.ScrEnd? && x.controller.core.engine.cnt == 7
    ensures System.Captured(x, noise) == FirstWord(cfg.mem, x.controller.core.engine, x.mem).word
  {
  }

  lemma PulseMoves(cfg: System.Config, x: System.State, h: Controller.Host, captured: Word, y: System.State, was: bool)
    requires x.Valid(cfg) && y.Valid(cfg) && y.mem.cells == x.mem.cells
    requires StrobesFit(x.controller.core.engine) && CountFits(cfg.core.engine, x.controller.core.engine)
    requires QueueEdges(x.controller, h, captured, y.controller) && h.fetching
    requires x.controller.core.engine.state.ScrEnd? && ReturnFits(cfg.mem, x.controller, x.mem, was)
    requires y.controller.core.engine.state == (if x.controller.core.engine.cnt == 0 then Idle else ScrEnd)
    requires x.controller.core.engine.cnt > 0 ==> y.controller.core.engine.cnt == x.controller.core.engine.cnt - 1
    requires y.controller.core.engine.addr == x.controller.core.engine.addr
    requires SameTarget(x.controller.core.engine, y.controller.core.engine)
    requires x.controller.core.engine.cnt == 7 ==> captured == FirstWord(cfg.mem, x.controller.core.engine, x.mem).word
    ensures ReturnFits(cfg.mem, y.controller, y.mem, x.controller.validOut)
  {
  }

  lemma FadesMore(c: Controller.State, h: Controller.Host, captured: Word, d: Controller.State, was: bool, level: int)
    requires QueueEdges(c, h, captured, d) && h.fetching && !c.core.engine.putReturn && Fades(c, was, level)
    ensures Fades(d, c.validOut, level + 1)
  {
  }

  lemma ReturnFlow(cfg: ProtocolEngine.Config, s: Registers, i: Inputs, t: Registers)
    requires CommandFits(s) && CountFits(cfg, s) && ScalarOnly(s) && FlowEdge(cfg, s, i, t) && !s.state.ScrEnd?
    ensures t.state.GetCmd? ==> (s.state.Idle? && t.cnt == 2) || (s.state.GetCmd? && (t.cnt == s.cnt - 1 || t.cnt == s.cnt == 0))
    ensures Trace.Executing(t.state) ==> Trace.Executing(s.state) || (s.state.GetCmd? && s.cnt == 0)
    ensures t.state.ScrEnd? ==> t.cnt == 8
  {
    if !Trace.Executing(s.state) {
      Trace.RestFlow(cfg, s, i, t);
    } else {
      ExecutingFlow(cfg, s, i, t);
    }
  }

  lemma ExecutingFlow(cfg: ProtocolEngine.Config, s: Registers, i: Inputs, t: Registers)
    requires CommandFits(s) && CountFits(cfg, s) && ScalarOnly(s) && FlowEdge(cfg, s, i, t) && !s.state.ScrEnd?
    requires Trace.Executing(s.state)
    ensures !t.state.GetCmd? && (t.state.ScrEnd? ==> t.cnt == 8)
  {
  }

  lemma RestFades(cfg: System.Config, x: System.State, h: Controller.Host, captured: Word, y: System.State, was: bool)
    requires x.Valid(cfg) && y.Valid(cfg) && Inv(cfg.core.engine, x.controller.core.engine)
    requires ScalarOnly(x.controller.core.engine) && StrobesFit(x.controller.core.engine)
    requires EngineEdges(cfg.core.engine, x.controller.core.engine, Controller.EngineWires(x.controller, h), y.controller.core.engine)
    requires QueueEdges(x.controller, h, captured, y.controller) && h.fetching
    requires !x.controller.core.engine.state.ScrEnd? && ReturnFits(cfg.mem, x.controller, x.mem, was)
    ensures ReturnFits(cfg.mem, y.controller, y.mem, x.controller.validOut)
  {
    var s := x.controller.core.engine;
    ReturnFlow(cfg.core.engine, s, Controller.EngineWires(x.controller, h), y.controller.core.engine);
    FadesMore(x.controller, h, captured, y.controller, was,
              if s.state.GetCmd? then 3 - s.cnt else if Trace.Executing(s.state) then 4 else 0);
  }

  // ---------------------------------------------------------------- operations and requests

  predicate OpFits(op: Op, r: Controller.Request) {
    op.addr == r.addr && r.cmd == if op.Store? then CODE_SCW else CODE_SCR
  }

  predicate Matches(ops: seq<Op>, requests: seq<Controller.Request>) {
    |ops| == |requests| && forall k :: 0 <= k < |ops| ==> OpFits(ops[k], requests[k])
  }

  predicate InProgress(s: Registers) {
    match s.state
    case Activate => true
    case WaitTrcd => true
    case IssueRead => true
    case ScRead => true
    case ScrEnd => s.cnt >= 5
    case IssueWrite => true
    case ScWrite => true
    case ScwrData => true
    case _ => false
  }

  /** The request being executed, the one on its way to the engine and those queued. */
  function OpenRequests(c: Controller.State): seq<Controller.Request> {
    var s := c.core.engine;
    (if InProgress(s) then [Controller.Request(s.addr, s.cmd, s.sz)] else []) + Order.InFlight(c) + c.commands.items
  }

  lemma ProgressFlow(cfg: ProtocolEngine.Config, s: Registers, i: Inputs, t: Registers)
    requires CommandFits(s) && CountFits(cfg, s) && ScalarOnly(s) && FlowEdge(cfg, s, i, t)
    ensures InProgress(t) <==> Latches(s) || (InProgress(s) && !Retires(s))
    ensures Retires(s) ==> InProgress(s)
    ensures Latches(s) ==> !InProgress(s)
  {
    if Trace.Executing(s.state) {
      OpenFlow(cfg, s, i, t);
    } else {
      Trace.RestFlow(cfg, s, i, t);
    }
  }

  lemma OpenFlow(cfg: ProtocolEngine.Config, s: Registers, i: Inputs, t: Registers)
    requires CommandFits(s) && CountFits(cfg, s) && ScalarOnly(s) && FlowEdge(cfg, s, i, t) && Trace.Executing(s.state)
    ensures InProgress(t) <==> InProgress(s) && !Retires(s)
  {
  }

  predicate RequestEdges(c: Controller.State, h: Controller.Host, d: Controller.State) {
    var s := c.core.engine;
    var t := d.core.engine;
    && Order.PopFits(c) && Order.Moves(s, Controller.EngineWires(c, h), t) && |c.commands.items| <= Controller.COMMAND_DEPTH
    && d.commands == Clocked(Controller.COMMAND_DEPTH, c.commands, Controller.Accepts(c, h), h.request, s.getCmd)
    && (InProgress(t) <==> Latches(s) || (InProgress(s) && !Retires(s)))
    && (Retires(s) ==> InProgress(s)) && (Latches(s) ==> !InProgress(s))
    && Controller.Request(t.addr, t.cmd, t.sz) == if Latches(s) then c.commands.out else Controller.Request(s.addr, s.cmd, s.sz)
  }

  function Added(c: Controller.State, h: Controller.Host): seq<Controller.Request> {
    if Controller.Accepts(c, h) then [h.request] else []
  }

  lemma RequestPopped(c: Controller.State, h: Controller.Host, d: Controller.State)
    requires RequestEdges(c, h, d) && c.core.engine.getCmd
    ensures OpenRequests(d) == OpenRequests(c) + Added(c, h) && !Retires(c.core.engine)
  {
    var q := c.commands;
    assert Order.InFlight(c) == [] && d.commands.out == q.items[0];
    assert q.items == [q.items[0]] + q.items[1..];
  }

  lemma RequestLatched(c: Controller.State, h: Controller.Host, d: Controller.State)
    requires RequestEdges(c, h, d) && Latches(c.core.engine)
    ensures OpenRequests(d) == OpenRequests(c) + Added(c, h) && !Retires(c.core.engine)
  {
    assert Order.InFlight(d) == [] && Order.InFlight(c) == [c.commands.out];
    assert d.commands.items == c.commands.items + Added(c, h);
  }

  lemma RequestStays(c: Controller.State, h: Controller.Host, d: Controller.State)
    requires RequestEdges(c, h, d) && !c.core.engine.getCmd && !Latches(c.core.engine)
    ensures OpenRequests(d) == (if Retires(c.core.engine) then OpenRequests(c)[1..] else OpenRequests(c)) + Added(c, h)
    ensures Retires(c.core.engine) ==> OpenRequests(c) != []
  {
    assert Order.InFlight(c) == Order.InFlight(d);
    assert d.commands.items == c.commands.items + Added(c, h);
  }

  /** A request moves from the queue to the engine's registers and leaves them when it retires. */
  lemma RequestsMove(c: Controller.State, h: Controller.Host, d: Controller.State)
    requires RequestEdges(c, h, d)
    ensures OpenRequests(d) == (if Retires(c.core.engine) then OpenRequests(c)[1..] else OpenRequests(c)) + Added(c, h)
    ensures Retires(c.core.engine) ==> OpenRequests(c) != []
  {
    if c.core.engine.getCmd {
      RequestPopped(c, h, d);
    } else if Latches(c.core.engine) {
      RequestLatched(c, h, d);
    } else {
      RequestStays(c, h, d);
    }
  }

  lemma MatchesMove(ops: seq<Op>, requests: seq<Controller.Request>, done: bool, op: seq<Op>, request: seq<Controller.Request>)
    requires Matches(ops, requests) && Matches(op, request) && (done ==> ops != [])
    ensures Matches((if done then ops[1..] else ops) + op, (if done then requests[1..] else requests) + request)
  {
  }

  predicate OpsFit(c: Controller.State, g: Ledger) {
    Matches(g.outstanding, OpenRequests(c)) && g.accepted == g.retired + g.outstanding
  }

  lemma AcceptedMoves(g: Ledger, c: Controller.State, h: Controller.Host)
    requires g.accepted == g.retired + g.outstanding
    ensures Track(g, c, h).accepted == Track(g, c, h).retired + Track(g, c, h).outstanding
  {
    if Retires(c.core.engine) && g.outstanding != [] {
      assert g.outstanding == [g.outstanding[0]] + g.outstanding[1..];
    }
  }

  lemma OpsMove(c: Controller.State, h: Controller.Host, d: Controller.State, g: Ledger)
    requires OpsFit(c, g) && Disciplined(c, g, h)
    requires OpenRequests(d) == (if Retires(c.core.engine) then OpenRequests(c)[1..] else OpenRequests(c)) + Added(c, h)
    requires Retires(c.core.engine) ==> OpenRequests(c) != []
    ensures OpsFit(d, Track(g, c, h))
  {
    AcceptedMoves(g, c, h);
    OutstandingMoves(g, c, h, OpenRequests(c));
  }

  lemma OutstandingMoves(g: Ledger, c: Controller.State, h: Controller.Host, open: seq<Controller.Request>)
    requires Matches(g.outstanding, open) && Disciplined(c, g, h) && (Retires(c.core.engine) ==> open != [])
    ensures Matches(Track(g, c, h).outstanding, (if Retires(c.core.engine) then open[1..] else open) + Added(c, h))
  {
    MatchesMove(g.outstanding, open, Retires(c.core.engine),
                if Controller.Accepts(c, h) then [OpOf(h)] else [], Added(c, h));
  }

  /** The operation in progress is the first outstanding one, and what is latched next is scalar too. */
  lemma FirstOutstanding(c: Controller.State, g: Ledger)
    requires OpsFit(c, g)
    ensures InProgress(c.core.engine) ==>
      && g.outstanding != [] && g.outstanding[0].addr == c.core.engine.addr
      && (c.core.engine.cmd == if g.outstanding[0].Store? then CODE_SCW else CODE_SCR)
    ensures !InProgress(c.core.engine) && Order.InFlight(c) != [] ==>
      c.commands.out.cmd == CODE_SCR || c.commands.out.cmd == CODE_SCW
  {
    var s := c.core.engine;
    if InProgress(s) {
      assert OpenRequests(c)[0] == Controller.Request(s.addr, s.cmd, s.sz);
      assert OpFits(g.outstanding[0], OpenRequests(c)[0]);
    } else if Order.InFlight(c) != [] {
      assert OpenRequests(c)[0] == c.commands.out;
      assert OpFits(g.outstanding[0], OpenRequests(c)[0]);
    }
  }

  // ---------------------------------------------------------------- the word of a store

  /** The word waits in the data FIFO, then on its output, then on the DQ lines, then in the device. */
  predicate WordFits(s: Registers, data: Queue<Word>, m: Memory, words: seq<Word>) {
    && |words| <= 1
    && if s.state.ScwrData? && s.cnt < 7 then
         && data.items == [] && words == [data.out]
         && (s.cnt <= 5 ==> s.dq == data.out) && (s.cnt <= 4 ==> m.wrLast == data.out)
       else data.items == words
  }

  lemma StoreComesFirst(ops: seq<Op>)
    requires ops != [] && ops[0].Store? && |StoreWords(ops)| <= 1
    ensures StoreWords(ops) == [ops[0].word] && StoreWords(ops[1..]) == []
  {
  }

  /** The operation that retires takes its word with it. */
  lemma RetiredWord(c: Controller.State, g: Ledger)
    requires OpsFit(c, g) && |StoreWords(g.outstanding)| <= 1
    requires Retires(c.core.engine) ==> InProgress(c.core.engine)
    ensures Retires(c.core.engine) ==> g.outstanding != []
    ensures StoreWords(if Retires(c.core.engine) then g.outstanding[1..] else g.outstanding) ==
            if Retires(c.core.engine) && c.core.engine.cmd == CODE_SCW then [] else StoreWords(g.outstanding)
    ensures InProgress(c.core.engine) && c.core.engine.cmd == CODE_SCW ==> StoreWords(g.outstanding) == [g.outstanding[0].word]
  {
    FirstOutstanding(c, g);
    if InProgress(c.core.engine) && c.core.engine.cmd == CODE_SCW {
      StoreComesFirst(g.outstanding);
    }
  }

  lemma WordsOfLedger(c: Controller.State, h: Controller.Host, g: Ledger)
    requires OpsFit(c, g) && Disciplined(c, g, h) && |StoreWords(g.outstanding)| <= 1
    requires Retires(c.core.engine) ==> InProgress(c.core.engine)
    ensures StoreWords(Track(g, c, h).outstanding) ==
            (if Retires(c.core.engine) && c.core.engine.cmd == CODE_SCW then [] else StoreWords(g.outstanding))
            + if h.dataPut then [h.din] else []
    ensures InProgress(c.core.engine) && c.core.engine.cmd == CODE_SCW ==> StoreWords(g.outstanding) == [g.outstanding[0].word]
  {
    RetiredWord(c, g);
    var kept := if Retires(c.core.engine) then g.outstanding[1..] else g.outstanding;
    StoreWordsAppend(kept, OpOf(h));
    assert kept + [] == kept;
  }

  /** In the data phase the device takes the word on the lines, which is the engine's. */
  lemma DeviceListens(cfg: System.Config, x: System.State, p: Pins)
    requires x.Valid(cfg) && StrobesFit(x.controller.core.engine)
    requires WriteFits(x.controller.core.engine, x.mem) && ReadFits(cfg.core.engine, cfg.mem, x.controller.core.engine, x.mem)
    requires x.controller.core.engine.state.ScwrData?
    ensures SimpleMem.Step(cfg.mem, x.mem, p, System.DqLines(x)).wrLast == x.controller.core.engine.dq
  {
  }

  lemma WordWaits(s: Registers, t: Registers, data: Queue<Word>, next: Queue<Word>, m: Memory, n: Memory, words: seq<Word>, put: bool, din: Word)
    requires WordFits(s, data, m, words) && !s.state.ScwrData? && !s.getData && (put ==> words == [])
    requires next == Clocked(Controller.DATA_DEPTH, data, put, din, s.getData)
    requires t.state.ScwrData? ==> t.cnt == 7
    ensures WordFits(t, next, n, words + if put then [din] else [])
  {
    assert words + [] == words;
  }

  lemma WordTravels(s: Registers, t: Registers, data: Queue<Word>, next: Queue<Word>, m: Memory, n: Memory, words: seq<Word>, din: Word)
    requires WordFits(s, data, m, words) && s.state.ScwrData? && s.getData && |words| == 1 && s.burst == 7 - s.cnt
    requires 0 <= s.cnt <= 7
    requires next == Clocked(Controller.DATA_DEPTH, data, false, din, true)
    requires t.dq == (if TakesData(s) then data.out else s.dq) && n.wrLast == s.dq
    requires if s.cnt > 0 then t.state.ScwrData? && t.cnt == s.cnt - 1 else t.state.ScwrEnd?
    ensures WordFits(t, next, n, if s.cnt == 0 then [] else words)
  {
  }

  // ---------------------------------------------------------------- the memory and what the host sees

  lemma ContentsStep(mc: SimpleMem.Config, cells: seq<Word>, ops: seq<Op>, op: Op)
    requires |cells| == mc.depth > 0
    ensures Contents(cells, ops + [op]) == Effect(Contents(cells, ops), op)
    ensures Answers(mc, cells, ops + [op]) == Answers(mc, cells, ops)
      + if op.Load? then [Controller.Return(op.addr, Contents(cells, ops)[CellOf(mc, Place(op.addr))])] else []
  {
    assert (ops + [op])[..|ops|] == ops;
  }

  predicate MemoryFits(cfg: System.Config, first: seq<Word>, m: Memory, g: Ledger)
    requires |first| == cfg.mem.depth > 0
  {
    m.cells == Contents(first, g.retired) && g.observed == Answers(cfg.mem, first, g.retired)
  }

  lemma PulseOnlyThere(mc: SimpleMem.Config, c: Controller.State, m: Memory, wasValid: bool)
    requires m.Valid(mc) && ReturnFits(mc, c, m, wasValid)
    ensures c.validOut && !wasValid <==> c.core.engine.state.ScrEnd? && c.core.engine.cnt == 5
    ensures c.validOut && !wasValid ==> c.readBack.out == FirstWord(mc, c.core.engine, m)
  {
  }

  lemma MemoryMoves(cfg: System.Config, first: seq<Word>, x: System.State, h: Controller.Host, p: Pins, g: Ledger)
    requires x.Valid(cfg) && |first| == cfg.mem.depth && MemoryFits(cfg, first, x.mem, g)
    requires CommandFits(x.controller.core.engine) && StrobesFit(x.controller.core.engine)
    requires ReturnFits(cfg.mem, x.controller, x.mem, g.wasValid) && WriteFits(x.controller.core.engine, x.mem)
    requires WordFits(x.controller.core.engine, x.controller.data, x.mem, StoreWords(g.outstanding))
    requires OpsFit(x.controller, g)
    requires Commits(x.mem) <==> x.controller.core.engine.state.ScwrData? && x.controller.core.engine.cnt == 0
    ensures MemoryFits(cfg, first, SimpleMem.Step(cfg.mem, x.mem, p, System.DqLines(x)), Track(g, x.controller, h))
  {
    var s := x.controller.core.engine;
    FirstOutstanding(x.controller, g);
    PulseOnlyThere(cfg.mem, x.controller, x.mem, g.wasValid);
    if Retires(s) {
      ContentsStep(cfg.mem, first, g.retired, g.outstanding[0]);
      if s.state.ScwrData? {
        StoreComesFirst(g.outstanding);
      }
    }
  }

  // ---------------------------------------------------------------- one cycle of everything

  predicate EngineFits(cfg: System.Config, x: System.State) {
    var c := x.controller;
    && Core.Fits(cfg.core, c.core) && Order.PopFits(c) && |c.commands.items| <= Controller.COMMAND_DEPTH
    && ScalarOnly(c.core.engine) && PadsFit(cfg.core, c.core) && StrobesFit(c.core.engine)
  }

  predicate DeviceFits(cfg: System.Config, x: System.State)
    requires x.Valid(cfg)
  {
    var s := x.controller.core.engine;
    RowKnown(s, x.mem) && ReadFits(cfg.core.engine, cfg.mem, s, x.mem) && WriteFits(s, x.mem)
  }

  predicate LedgerFits(cfg: System.Config, x: System.State, g: Ledger)
    requires x.Valid(cfg)
  {
    && ReturnFits(cfg.mem, x.controller, x.mem, g.wasValid)
    && OpsFit(x.controller, g)
    && WordFits(x.controller.core.engine, x.controller.data, x.mem, StoreWords(g.outstanding))
  }

  lemma LatchedIsScalar(c: Controller.State, g: Ledger)
    requires OpsFit(c, g) && Latches(c.core.engine)
    ensures c.commands.out.cmd == CODE_SCR || c.commands.out.cmd == CODE_SCW
  {
    FirstOutstanding(c, g);
  }

  lemma EngineMoves(cfg: System.Config, x: System.State, cycle: System.Cycle, y: System.State, g: Ledger)
    requires cfg.Valid() && x.Valid(cfg) && EngineFits(cfg, x) && OpsFit(x.controller, g)
    requires Moved(cfg, x, cycle, y) && !cycle.host.reset
    ensures Core.Fits(cfg.core, y.controller.core) && PadsFit(cfg.core, y.controller.core)
    ensures ScalarOnly(y.controller.core.engine) && StrobesFit(y.controller.core.engine)
    ensures RequestEdges(x.controller, cycle.host, y.controller)
  {
    var c := x.controller;
    var s := c.core.engine;
    var t := y.controller.core.engine;
    var wires := Controller.EngineWires(c, cycle.host);
    Core.StepFits(cfg.core, c.core, Controller.CoreInputs(c, cycle.host));
    StepKeepsPads(cfg.core, c.core, Controller.CoreInputs(c, cycle.host));
    if Latches(s) {
      LatchedIsScalar(c, g);
    }
    EdgeKeepsScalar(cfg.core.engine, s, wires, t);
    EdgeKeepsStrobes(cfg.core.engine, s, wires, t);
    Order.EngineMoves(cfg.core.engine, s, wires, t);
    ProgressFlow(cfg.core.engine, s, wires, t);
  }

  lemma RequestsStayInOrder(c: Controller.State, h: Controller.Host, d: Controller.State)
    requires RequestEdges(c, h, d)
    ensures Order.PopFits(d) && |d.commands.items| <= Controller.COMMAND_DEPTH
  {
  }

  lemma DeviceMoves(cfg: System.Config, x: System.State, cycle: System.Cycle, y: System.State)
    requires cfg.Valid() && x.Valid(cfg) && y.Valid(cfg) && EngineFits(cfg, x) && DeviceFits(cfg, x) && Moved(cfg, x, cycle, y)
    ensures DeviceFits(cfg, y)
    ensures Commits(x.mem) <==> x.controller.core.engine.state.ScwrData? && x.controller.core.engine.cnt == 0
  {
    var s := x.controller.core.engine;
    var t := y.controller.core.engine;
    var wires := Controller.EngineWires(x.controller, cycle.host);
    var p := Core.Pads(x.controller.core);
    EdgeKeepsRow(cfg.core.engine, cfg.mem, s, wires, t, x.mem, p, System.DqLines(x));
    EdgeKeepsRead(cfg.core.engine, cfg.mem, s, wires, t, x.mem, p, System.DqLines(x));
    EdgeKeepsWrite(cfg.core.engine, cfg.mem, s, wires, t, x.mem, p, System.DqLines(x));
  }

  lemma ReturnMoves(cfg: System.Config, x: System.State, cycle: System.Cycle, y: System.State, was: bool)
    requires cfg.Valid() && x.Valid(cfg) && y.Valid(cfg) && EngineFits(cfg, x) && DeviceFits(cfg, x) && Moved(cfg, x, cycle, y)
    requires cycle.host.fetching && ReturnFits(cfg.mem, x.controller, x.mem, was)
    requires Commits(x.mem) ==> x.controller.core.engine.state.ScwrData?
    ensures ReturnFits(cfg.mem, y.controller, y.mem, x.controller.validOut)
  {
    var s := x.controller.core.engine;
    var captured := System.Captured(x, cycle.noise);
    if s.state.ScrEnd? {
      if s.cnt == 7 {
        FirstWordCaptured(cfg, x, cycle.noise);
      }
      PulseFlow(cfg.core.engine, s, Controller.EngineWires(x.controller, cycle.host), y.controller.core.engine);
      PulseMoves(cfg, x, cycle.host, captured, y, was);
    } else {
      RestFades(cfg, x, cycle.host, captured, y, was);
    }
  }

  lemma PulseFlow(cfg: ProtocolEngine.Config, s: Registers, i: Inputs, t: Registers)
    requires CommandFits(s) && CountFits(cfg, s) && ScalarOnly(s) && FlowEdge(cfg, s, i, t) && DataEdge(s, i, t) && s.state.ScrEnd?
    ensures t.state == (if s.cnt == 0 then Idle else ScrEnd) && (s.cnt > 0 ==> t.cnt == s.cnt - 1)
    ensures t.addr == s.addr && SameTarget(s, t)
  {
  }

  lemma WordMoves(cfg: System.Config, x: System.State, cycle: System.Cycle, y: System.State, g: Ledger)
    requires cfg.Valid() && x.Valid(cfg) && EngineFits(cfg, x) && DeviceFits(cfg, x) && LedgerFits(cfg, x, g)
    requires Moved(cfg, x, cycle, y) && Disciplined(x.controller, g, cycle.host)
    requires Retires(x.controller.core.engine) ==> InProgress(x.controller.core.engine)
    ensures WordFits(y.controller.core.engine, y.controller.data, y.mem, StoreWords(Track(g, x.controller, cycle.host).outstanding))
  {
    var s := x.controller.core.engine;
    var t := y.controller.core.engine;
    var words := StoreWords(g.outstanding);
    WordsOfLedger(x.controller, cycle.host, g);
    WriteFlow(cfg.core.engine, s, Controller.EngineWires(x.controller, cycle.host), t);
    if s.state.ScwrData? {
      DeviceListens(cfg, x, Core.Pads(x.controller.core));
      DataFlow(cfg.core.engine, s, Controller.EngineWires(x.controller, cycle.host), t);
      WordTravels(s, t, x.controller.data, y.controller.data, x.mem, y.mem, words, cycle.host.din);
    } else {
      WordWaits(s, t, x.controller.data, y.controller.data, x.mem, y.mem, words, cycle.host.dataPut, cycle.host.din);
    }
  }

  lemma DataFlow(cfg: ProtocolEngine.Config, s: Registers, i: Inputs, t: Registers)
    requires CommandFits(s) && CountFits(cfg, s) && StrobesFit(s) && FlowEdge(cfg, s, i, t) && s.state.ScwrData?
    ensures if s.cnt > 0 then t.state.ScwrData? && t.cnt == s.cnt - 1 else t.state.ScwrEnd?
    ensures s.cmd == CODE_SCW && 0 <= s.cnt <= 7
  {
  }

  // ---------------------------------------------------------------- whole runs

  datatype Bench = Bench(sys: System.State, ledger: Ledger)

  function BenchStep(cfg: System.Config, b: Bench, cycle: System.Cycle): (n: Bench)
    requires b.sys.Valid(cfg)
    ensures n.sys.Valid(cfg)
  {
    Bench(System.Step(cfg, b.sys, cycle), Track(b.ledger, b.sys.controller, cycle.host))
  }

  function BenchRun(cfg: System.Config, start: System.State, cycles: seq<System.Cycle>): (b: Bench)
    requires start.Valid(cfg)
    ensures b.sys.Valid(cfg)
  {
    if cycles == [] then Bench(start, START)
    else BenchStep(cfg, BenchRun(cfg, start, cycles[..|cycles| - 1]), cycles[|cycles| - 1])
  }

  /** The host keeps to its discipline in every cycle. */
  predicate AllDisciplined(cfg: System.Config, start: System.State, cycles: seq<System.Cycle>)
    requires start.Valid(cfg)
  {
    cycles == [] ||
    var b := BenchRun(cfg, start, cycles[..|cycles| - 1]);
    && AllDisciplined(cfg, start, cycles[..|cycles| - 1])
    && Disciplined(b.sys.controller, b.ledger, cycles[|cycles| - 1].host)
  }

  predicate BenchFits(cfg: System.Config, first: seq<Word>, b: Bench)
    requires b.sys.Valid(cfg) && |first| == cfg.mem.depth
  {
    && EngineFits(cfg, b.sys) && DeviceFits(cfg, b.sys) && LedgerFits(cfg, b.sys, b.ledger)
    && MemoryFits(cfg, first, b.sys.mem, b.ledger)
  }

  /** The controller after reset, the memory at rest. */
  predicate Starts(cfg: System.Config, x: System.State) {
    x.Valid(cfg) && Controller.IsReset(cfg.core, x.controller) && Resting(x.mem)
  }

  lemma LatchStarts(cfg: ProtocolEngine.Config, s: Registers)
    requires s == Reset(cfg, s)
    ensures StrobesFit(s) && s.state.Idle? && ScalarOnly(s)
  {
    assert s.state.Idle? && !s.getData && !s.driveDq && !s.putReturn;
    assert s.addr == 0 && s.row == 0 && s.bank == 0 && s.col == 0;
  }

  lemma PadsStart(cfg: System.Config, c: Core.State)
    requires cfg.Valid() && Core.IsReset(cfg.core, c)
    ensures PadsFit(cfg.core, c)
  {
    RestingPins(cfg.core.engine, c.engine, Core.Pads(c));
  }

  lemma CoreStarts(cfg: System.Config, x: System.State)
    requires cfg.Valid() && Controller.IsReset(cfg.core, x.controller)
    ensures Core.Fits(cfg.core, x.controller.core) && Order.PopFits(x.controller)
  {
    Core.ResetFits(cfg.core, x.controller.core);
  }

  lemma QueuesStart(cfg: System.Config, x: System.State)
    requires Starts(cfg, x) && x.controller.core.engine.state.Idle?
    ensures DeviceFits(cfg, x) && LedgerFits(cfg, x, START) && MemoryFits(cfg, x.mem.cells, x.mem, START)
  {
    assert OpenRequests(x.controller) == [];
  }

  lemma StartFits(cfg: System.Config, x: System.State)
    requires cfg.Valid() && Starts(cfg, x)
    ensures BenchFits(cfg, x.mem.cells, Bench(x, START))
  {
    CoreStarts(cfg, x);
    LatchStarts(cfg.core.engine, x.controller.core.engine);
    PadsStart(cfg, x.controller.core);
    QueuesStart(cfg, x);
  }

  lemma EngineSideMoves(cfg: System.Config, x: System.State, g: Ledger, cycle: System.Cycle, y: System.State)
    requires cfg.Valid() && x.Valid(cfg) && EngineFits(cfg, x) && OpsFit(x.controller, g) && !cycle.host.reset
    requires Disciplined(x.controller, g, cycle.host) && Moved(cfg, x, cycle, y)
    ensures EngineFits(cfg, y) && OpsFit(y.controller, Track(g, x.controller, cycle.host))
    ensures Retires(x.controller.core.engine) ==> InProgress(x.controller.core.engine)
  {
    EngineMoves(cfg, x, cycle, y, g);
    RequestsStayInOrder(x.controller, cycle.host, y.controller);
    RequestsMove(x.controller, cycle.host, y.controller);
    OpsMove(x.controller, cycle.host, y.controller, g);
  }

  lemma BenchMoves(cfg: System.Config, first: seq<Word>, x: System.State, g: Ledger, cycle: System.Cycle, y: System.State)
    requires cfg.Valid() && x.Valid(cfg) && y.Valid(cfg) && |first| == cfg.mem.depth
    requires BenchFits(cfg, first, Bench(x, g)) && Disciplined(x.controller, g, cycle.host) && Moved(cfg, x, cycle, y)
    ensures BenchFits(cfg, first, Bench(y, Track(g, x.controller, cycle.host)))
  {
    EngineSideMoves(cfg, x, g, cycle, y);
    DeviceMoves(cfg, x, cycle, y);
    ReturnMoves(cfg, x, cycle, y, g.wasValid);
    WordMoves(cfg, x, cycle, y, g);
    MemoryMoves(cfg, first, x, cycle.host, Core.Pads(x.controller.core), g);
  }

  lemma {:induction false} RunFits(cfg: System.Config, start: System.State, cycles: seq<System.Cycle>)
    requires cfg.Valid() && Starts(cfg, start) && AllDisciplined(cfg, start, cycles)
    ensures BenchFits(cfg, start.mem.cells, BenchRun(cfg, start, cycles))
  {
    if cycles == [] {
      StartFits(cfg, start);
    } else {
      var b := BenchRun(cfg, start, cycles[..|cycles| - 1]);
      var cycle := cycles[|cycles| - 1];
      RunFits(cfg, start, cycles[..|cycles| - 1]);
      StepEdgesOf(cfg, b.sys, cycle);
      BenchMoves(cfg, start.mem.cells, b.sys, b.ledger, cycle, System.Step(cfg, b.sys, cycle));
    }
  }

  /**
   * Scalar traffic refines an abstract memory. On every run from reset with a disciplined host, for every
   * read latency and memory depth: the device holds exactly what the finished operations store, the host has
   * seen exactly what the finished loads return, in order, and the operations accepted are those finished and
   * those still outstanding. Nobody ever fights over the DQ lines.
   */
  lemma RefinesMemory(cfg: System.Config, start: System.State, cycles: seq<System.Cycle>)
    requires cfg.Valid() && Starts(cfg, start) && AllDisciplined(cfg, start, cycles)
    ensures Refines(cfg, start.mem.cells, BenchRun(cfg, start, cycles))
    ensures !System.Contention(BenchRun(cfg, start, cycles).sys)
  {
    RunFits(cfg, start, cycles);
    FittingRefines(cfg, start.mem.cells, BenchRun(cfg, start, cycles));
  }

  predicate Refines(cfg: System.Config, first: seq<Word>, b: Bench)
    requires |first| == cfg.mem.depth > 0
  {
    && b.sys.mem.cells == Contents(first, b.ledger.retired)
    && b.ledger.observed == Answers(cfg.mem, first, b.ledger.retired)
    && b.ledger.accepted == b.ledger.retired + b.ledger.outstanding
    && Matches(b.ledger.outstanding, OpenRequests(b.sys.controller))
  }

  lemma FittingRefines(cfg: System.Config, first: seq<Word>, b: Bench)
    requires b.sys.Valid(cfg) && |first| == cfg.mem.depth && BenchFits(cfg, first, b)
    ensures Refines(cfg, first, b) && !System.Contention(b.sys)
  {
  }

  /**
   * A VALIDOUT pulse begins in the third cycle of a load's burst, and in no other. RADDR and DOUT then carry the
   * load's address and the content of its cell after everything finished before it.
   */
  lemma PulsesBegin(cfg: System.Config, start: System.State, cycles: seq<System.Cycle>)
    requires cfg.Valid() && Starts(cfg, start) && AllDisciplined(cfg, start, cycles)
    ensures PulseIsAnswer(cfg, start.mem.cells, BenchRun(cfg, start, cycles))
  {
    RunFits(cfg, start, cycles);
    PulseShowsCell(cfg, start.mem.cells, BenchRun(cfg, start, cycles));
  }

  predicate PulseBegins(b: Bench) { b.sys.controller.validOut && !b.ledger.wasValid }

  predicate PulseIsAnswer(cfg: System.Config, first: seq<Word>, b: Bench)
    requires |first| == cfg.mem.depth > 0
  {
    var s := b.sys.controller.core.engine;
    && (PulseBegins(b) <==> s.state.ScrEnd? && s.cnt == 5)
    && (PulseBegins(b) ==> ShowsCell(cfg, first, b))
  }

  /** RADDR and DOUT carry the first outstanding load and the content of its cell so far. */
  predicate ShowsCell(cfg: System.Config, first: seq<Word>, b: Bench)
    requires |first| == cfg.mem.depth > 0
  {
    && b.ledger.outstanding != [] && b.ledger.outstanding[0].Load?
    && var a := b.ledger.outstanding[0].addr;
       b.sys.controller.readBack.out == Controller.Return(a, Contents(first, b.ledger.retired)[CellOf(cfg.mem, Place(a))])
  }

  lemma PulseShowsCell(cfg: System.Config, first: seq<Word>, b: Bench)
    requires b.sys.Valid(cfg) && |first| == cfg.mem.depth && BenchFits(cfg, first, b)
    ensures PulseIsAnswer(cfg, first, b)
  {
    PulseOnlyThere(cfg.mem, b.sys.controller, b.sys.mem, b.ledger.wasValid);
    FirstOutstanding(b.sys.controller, b.ledger);
  }

  /** With nothing left to do, everything accepted has been done and answered. */
  lemma DrainedMeansDone(cfg: System.Config, start: System.State, cycles: seq<System.Cycle>)
    requires cfg.Valid() && Starts(cfg, start) && AllDisciplined(cfg, start, cycles)
    requires OpenRequests(BenchRun(cfg, start, cycles).sys.controller) == []
    ensures BenchRun(cfg, start, cycles).sys.mem.cells == Contents(start.mem.cells, BenchRun(cfg, start, cycles).ledger.accepted)
    ensures BenchRun(cfg, start, cycles).ledger.observed ==
            Answers(cfg.mem, start.mem.cells, BenchRun(cfg, start, cycles).ledger.accepted)
  {
    RefinesMemory(cfg, start, cycles);
    DrainedRefines(cfg, start.mem.cells, BenchRun(cfg, start, cycles));
  }

  lemma DrainedRefines(cfg: System.Config, first: seq<Word>, b: Bench)
    requires |first| == cfg.mem.depth > 0 && Refines(cfg, first, b) && OpenRequests(b.sys.controller) == []
    ensures b.sys.mem.cells == Contents(first, b.ledger.accepted) && b.ledger.observed == Answers(cfg.mem, first, b.ledger.accepted)
  {
    assert b.ledger.accepted == b.ledger.retired;
  }

  /** None of these operations stores into cell x. */
  predicate LeavesAlone(mc: SimpleMem.Config, ops: seq<Op>, x: nat)
    requires mc.depth > 0
  {
    forall j :: 0 <= j < |ops| && ops[j].Store? ==>
      forall k :: 0 <= k < BURST ==> Slot(mc.depth, BaseOf(ops[j].addr), k) != x
  }

  lemma {:induction false} AloneKeeps(mc: SimpleMem.Config, cells: seq<Word>, before: seq<Op>, after: seq<Op>, x: nat)
    requires |cells| == mc.depth > 0 && x < mc.depth && LeavesAlone(mc, after, x)
    ensures Contents(cells, before + after)[x] == Contents(cells, before)[x]
  {
    if after == [] {
      assert before + after == before;
    } else {
      var shorter := after[..|after| - 1];
      var last := after[|after| - 1];
      AloneKeeps(mc, cells, before, shorter, x);
      assert before + after == (before + shorter) + [last];
      ContentsStep(mc, cells, before + shorter, last);
      if last.Store? {
        FillSlots(Contents(cells, before + shorter), BaseOf(last.addr), BURST, last.word, x);
      }
    }
  }

  /** Read after write: each of the eight cells of a store holds its word until a later store overwrites it. */
  lemma StoreIsRemembered(mc: SimpleMem.Config, cells: seq<Word>, before: seq<Op>, a: Address, w: Word, after: seq<Op>, k: nat)
    requires |cells| == mc.depth > 0 && k < BURST && LeavesAlone(mc, after, Slot(mc.depth, BaseOf(a), k))
    ensures Contents(cells, before + [Store(a, w)] + after)[Slot(mc.depth, BaseOf(a), k)] == w
    ensures Slot(mc.depth, BaseOf(a), 0) == CellOf(mc, Place(a))
  {
    var x := Slot(mc.depth, BaseOf(a), k);
    ContentsStep(mc, cells, before, Store(a, w));
    FillSlots(Contents(cells, before), BaseOf(a), BURST, w, x);
    AloneKeeps(mc, cells, before + [Store(a, w)], after, x);
  }
}
