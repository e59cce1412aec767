/** Every write command takes exactly its own words from the data FIFO. */
module WriteData {
  import opened DdrBus
  import opened Fifo
  import opened Controller
  import opened CommandOrder
  import opened ProtocolEngine
  import opened EngineInvariant
  import Trace = CommandTrace
  import Core

  /** The words a command is due: eight a burst. */
  function Need(r: Request): nat {
    if r.cmd == CODE_SCW then 8 else if r.cmd == CODE_BLW then 8 * (r.sz + 1) else 0
  }

  function TotalNeed(rs: seq<Request>): nat {
    if rs == [] then 0 else TotalNeed(rs[..|rs| - 1]) + Need(rs[|rs| - 1])
  }

  /** The words the command in the engine's registers has asked for so far. */
  function Asked(s: Registers): int {
    var blocks := if s.fromBlw then 8 * s.blk else 0;
    match s.state
    case ScwrData => blocks + s.burst + 1
    case ScwrEnd => blocks + 8
    case BlwIssue => 8 * s.blk
    case BlwWrite => 8 * s.blk
    case _ => if Trace.Executing(s.state) || !s.haveAct then 0 else Need(Request(s.addr, s.cmd, s.sz))
  }

  /** The burst counter runs up to seven and stays there while the data phase runs out its count. */
  predicate BurstFits(cfg: Config, s: Registers) {
    && (s.state.ScwrData? ==>
      && s.burst == (if MaxCount(cfg, s) - s.cnt < 7 then MaxCount(cfg, s) - s.cnt else 7))
    && (Trace.Executing(s.state) ==> s.haveAct)
    && (s.getData ==> s.state.ScwrData?)
  }

  predicate Edges(cfg: Config, s: Registers, i: Inputs, t: Registers) {
    && FlowEdge(cfg, s, i, t) && CommandEdge(s, i, t) && TimerEdge(cfg, s, i, t)
    && t.getData == TakesData(s)
  }

  lemma EdgeKeepsBurst(cfg: Config, s: Registers, i: Inputs, t: Registers)
    requires cfg.Valid() && CommandFits(s) && CountFits(cfg, s) && TimersFit(cfg, s) && BurstFits(cfg, s)
    requires Edges(cfg, s, i, t)
    ensures BurstFits(cfg, t)
  {
    if t.state.ScwrData? {
      DataFlow(cfg, s, i, t);
    }
    if TakesData(s) {
      TakesFlow(cfg, s, i, t);
    }
    if Trace.Executing(t.state) {
      ExecutionFlow(cfg, s, i, t);
    }
  }

  lemma DataFlow(cfg: Config, s: Registers, i: Inputs, t: Registers)
    requires cfg.Valid() && CommandFits(s) && CountFits(cfg, s) && TimersFit(cfg, s) && BurstFits(cfg, s)
    requires Edges(cfg, s, i, t) && t.state.ScwrData?
    ensures t.burst == (if MaxCount(cfg, t) - t.cnt < 7 then MaxCount(cfg, t) - t.cnt else 7)
  {
    WriteFlow(cfg, s, i, t);
  }

  lemma OnlyWritesCarryData(a: ProtocolEngine.State, b: ProtocolEngine.State)
    requires Arrow(a, b) && b == ScwrData
    ensures a == ScWrite || a == BlwWrite || a == ScwrData
  {
  }

  lemma WriteFlow(cfg: Config, s: Registers, i: Inputs, t: Registers)
    requires CommandFits(s) && FlowEdge(cfg, s, i, t) && t.state.ScwrData?
    ensures ((s.state.ScWrite? || s.state.BlwWrite?) && s.cnt == 0) || (s.state.ScwrData? && s.cnt != 0)
  {
    EdgeFollowsArrow(cfg, s, i, t);
    OnlyWritesCarryData(s.state, t.state);
  }

  lemma TakesFlow(cfg: Config, s: Registers, i: Inputs, t: Registers)
    requires CountFits(cfg, s) && CommandFits(s) && BurstFits(cfg, s) && t.state == NextState(cfg, s, i) && TakesData(s)
    ensures t.state.ScwrData?
  {
  }

  lemma ExecutionFlow(cfg: Config, s: Registers, i: Inputs, t: Registers)
    requires CommandFits(s) && t.state == NextState(cfg, s, i) && Trace.Executing(t.state)
    ensures Trace.Executing(s.state) || Latches(s)
  {
    if !Trace.Executing(s.state) {
      Trace.RestFlow(cfg, s, i, t);
    }
  }

  /** A command starts with nothing asked, asks for one word on every taking edge, and ends with its due. */
  lemma EdgeAsks(cfg: Config, s: Registers, i: Inputs, t: Registers)
    requires cfg.Valid() && CommandFits(s) && CountFits(cfg, s) && TimersFit(cfg, s) && BurstFits(cfg, s)
    requires Edges(cfg, s, i, t) && !Latches(s)
    ensures Asked(t) == Asked(s) + if TakesData(s) then 1 else 0
  {
    if Trace.Executing(s.state) {
      ExecutingAsks(cfg, s, i, t);
    } else {
      RestAsks(cfg, s, i, t);
    }
  }

  lemma ExecutingAsks(cfg: Config, s: Registers, i: Inputs, t: Registers)
    requires cfg.Valid() && CommandFits(s) && CountFits(cfg, s) && TimersFit(cfg, s) && BurstFits(cfg, s)
    requires Edges(cfg, s, i, t) && Trace.Executing(s.state)
    ensures Asked(t) == Asked(s) + if TakesData(s) then 1 else 0
  {
  }

  lemma RestAsks(cfg: Config, s: Registers, i: Inputs, t: Registers)
    requires CommandFits(s) && Edges(cfg, s, i, t) && !Latches(s) && !Trace.Executing(s.state)
    ensures Asked(t) == Asked(s) && !TakesData(s)
  {
    Trace.RestFlow(cfg, s, i, t);
  }

  // ---------------------------------------------------------------- whole runs

  /** `starved` remembers a request that found the data FIFO empty. */
  datatype Meter = Meter(asked: int, accepted: seq<Word>, delivered: seq<Word>, starved: bool)

  const START := Meter(0, [], [], false)

  function Measure(b: Bench, m: Meter, cycle: Cycle): Meter {
    var c := b.state;
    if cycle.host.reset then START
    else Meter(
      m.asked + (if TakesData(c.core.engine) then 1 else 0),
      m.accepted + (if Takes(DATA_DEPTH, c.data, cycle.host.dataPut) then [cycle.host.din] else []),
      m.delivered + (if Gives(c.data, c.core.engine.getData) then [c.data.items[0]] else []),
      m.starved || (c.core.engine.getData && c.data.items == []))
  }

  function MeterRun(cfg: Core.Config, start: Controller.State, cycles: seq<Cycle>): Meter {
    if cycles == [] then START
    else
      var before := cycles[..|cycles| - 1];
      Measure(BenchRun(cfg, start, before), MeterRun(cfg, start, before), cycles[|cycles| - 1])
  }

  /** Everything latched before the current command was asked for in full. */
  predicate AskedFits(s: Registers, latched: seq<Request>, asked: int) {
    if s.haveAct then latched != [] && asked == TotalNeed(latched[..|latched| - 1]) + Asked(s)
    else latched == [] && asked == 0
  }

  /** A request on the wires that the FIFO answers at the next edge. */
  function Pending(c: Controller.State): int { if c.core.engine.getData then 1 else 0 }

  predicate StockFits(c: Controller.State, m: Meter) {
    && m.accepted == m.delivered + c.data.items
    && if m.starved then |m.delivered| + Pending(c) < m.asked else |m.delivered| + Pending(c) == m.asked
  }

  predicate MeterFits(cfg: Core.Config, b: Bench, m: Meter) {
    var s := b.state.core.engine;
    BurstFits(cfg.engine, s) && AskedFits(s, b.log.latched, m.asked) && StockFits(b.state, m)
  }

  lemma AskedGrows(cfg: Config, s: Registers, i: Inputs, t: Registers, latched: seq<Request>, asked: int)
    requires cfg.Valid() && CommandFits(s) && CountFits(cfg, s) && TimersFit(cfg, s) && BurstFits(cfg, s)
    requires Edges(cfg, s, i, t) && AskedFits(s, latched, asked) && LastLatched(s, latched)
    requires s.haveAct || !TakesData(s)
    ensures AskedFits(t, latched + (if Latches(s) then [Request(i.addr, i.cmd, i.sz)] else []),
                      asked + if TakesData(s) then 1 else 0)
  {
    if Latches(s) {
      assert (latched + [Request(i.addr, i.cmd, i.sz)])[..|latched|] == latched;
      assert t.state.Activate?;
    } else {
      EdgeAsks(cfg, s, i, t);
      assert latched + [] == latched;
    }
  }

  lemma StockMoves(b: Bench, n: Controller.State, m: Meter, cycle: Cycle)
    requires StockFits(b.state, m) && !cycle.host.reset
    requires n.data == Clocked(DATA_DEPTH, b.state.data, cycle.host.dataPut, cycle.host.din, b.state.core.engine.getData)
    requires n.core.engine.getData == TakesData(b.state.core.engine)
    ensures StockFits(n, Measure(b, m, cycle))
  {
    var q := b.state.data;
    var given := if Gives(q, b.state.core.engine.getData) then [q.items[0]] else [];
    var taken := if Takes(DATA_DEPTH, q, cycle.host.dataPut) then [cycle.host.din] else [];
    assert m.delivered + q.items + taken == m.delivered + given + n.data.items;
  }

  lemma MeterMoves(cfg: Core.Config, b: Bench, n: Bench, m: Meter, cycle: Cycle)
    requires cfg.Valid() && Inv(cfg.engine, b.state.core.engine) && LastLatched(b.state.core.engine, b.log.latched)
    requires MeterFits(cfg, b, m) && !cycle.host.reset
    requires Edges(cfg.engine, b.state.core.engine, EngineWires(b.state, cycle.host), n.state.core.engine)
    requires n.state.data == Clocked(DATA_DEPTH, b.state.data, cycle.host.dataPut, cycle.host.din, b.state.core.engine.getData)
    requires n.log.latched == b.log.latched + (if Latches(b.state.core.engine) then [b.state.commands.out] else [])
    ensures MeterFits(cfg, n, Measure(b, m, cycle))
  {
    var s := b.state.core.engine;
    var wires := EngineWires(b.state, cycle.host);
    EdgeKeepsBurst(cfg.engine, s, wires, n.state.core.engine);
    AskedGrows(cfg.engine, s, wires, n.state.core.engine, b.log.latched, m.asked);
    StockMoves(b, n.state, m, cycle);
  }

  lemma StepKeepsMeter(cfg: Core.Config, b: Bench, m: Meter, cycle: Cycle)
    requires cfg.Valid() && BenchFits(cfg, b) && MeterFits(cfg, b, m) && !cycle.host.reset
    ensures MeterFits(cfg, BenchStep(cfg, b, cycle), Measure(b, m, cycle))
  {
    StepQueues(cfg, b, cycle);
    StepEdges(cfg.engine, b.state.core.engine, EngineWires(b.state, cycle.host));
    MeterMoves(cfg, b, BenchStep(cfg, b, cycle), m, cycle);
  }

  lemma {:induction false} RunKeepsMeter(cfg: Core.Config, start: Controller.State, cycles: seq<Cycle>)
    requires cfg.Valid() && IsReset(cfg, start)
    ensures MeterFits(cfg, BenchRun(cfg, start, cycles), MeterRun(cfg, start, cycles))
  {
    if cycles != [] {
      var before := cycles[..|cycles| - 1];
      RunKeepsMeter(cfg, start, before);
      ExactlyOnceInOrder(cfg, start, before);
      if !cycles[|cycles| - 1].host.reset {
        StepKeepsMeter(cfg, BenchRun(cfg, start, before), MeterRun(cfg, start, before), cycles[|cycles| - 1]);
      }
    }
  }

  // ---------------------------------------------------------------- enough words

  lemma {:induction false} NeedGrows(rs: seq<Request>, more: seq<Request>)
    ensures TotalNeed(rs) <= TotalNeed(rs + more)
  {
    if more == [] {
      assert rs + more == rs;
    } else {
      NeedGrows(rs, more[..|more| - 1]);
      assert (rs + more)[..|rs + more| - 1] == rs + more[..|more| - 1];
    }
  }

  lemma AskedWithinNeed(cfg: Config, s: Registers)
    requires cfg.Valid() && CommandFits(s) && CountFits(cfg, s) && TimersFit(cfg, s) && BurstFits(cfg, s)
    ensures 0 <= Asked(s) <= Need(Request(s.addr, s.cmd, s.sz))
  {
  }

  lemma ShareBounds(cfg: Config, s: Registers, latched: seq<Request>, asked: int)
    requires cfg.Valid() && CommandFits(s) && CountFits(cfg, s) && TimersFit(cfg, s) && BurstFits(cfg, s)
    requires AskedFits(s, latched, asked) && LastLatched(s, latched)
    ensures asked <= TotalNeed(latched) && (latched != [] ==> TotalNeed(latched[..|latched| - 1]) <= asked)
  {
    AskedWithinNeed(cfg, s);
  }

  lemma AcceptedNeedMore(b: Bench)
    requires InOrder(b)
    ensures TotalNeed(b.log.latched) <= TotalNeed(b.log.accepted)
  {
    NeedGrows(b.log.latched, InFlight(b.state) + b.state.commands.items);
    assert b.log.accepted == b.log.latched + (InFlight(b.state) + b.state.commands.items);
  }

  /** While a command is the last one latched, the words asked for lie within its share. */
  lemma AskedWithinShare(cfg: Core.Config, b: Bench, m: Meter)
    requires cfg.Valid() && BenchFits(cfg, b) && MeterFits(cfg, b, m)
    ensures var l := b.log.latched;
      && m.asked <= TotalNeed(l) <= TotalNeed(b.log.accepted)
      && (l != [] ==> TotalNeed(l[..|l| - 1]) <= m.asked)
  {
    AcceptedNeedMore(b);
    ShareBounds(cfg.engine, b.state.core.engine, b.log.latched, m.asked);
  }

  /** As many words accepted as the accepted commands are due together; a host can count both. */
  predicate Covered(b: Bench, m: Meter) { TotalNeed(b.log.accepted) <= |m.accepted| }

  predicate AlwaysCovered(cfg: Core.Config, start: Controller.State, cycles: seq<Cycle>) {
    forall n :: 0 <= n <= |cycles| ==> Covered(BenchRun(cfg, start, cycles[..n]), MeterRun(cfg, start, cycles[..n]))
  }

  lemma StepStarves(cfg: Core.Config, b: Bench, m: Meter, cycle: Cycle)
    requires cfg.Valid() && BenchFits(cfg, b) && MeterFits(cfg, b, m) && !m.starved && Covered(b, m)
    ensures !Measure(b, m, cycle).starved
  {
    AskedWithinShare(cfg, b, m);
  }

  /** A host that is always ahead with its words never starves a write command. */
  lemma {:induction false} CoveredNeverStarves(cfg: Core.Config, start: Controller.State, cycles: seq<Cycle>)
    requires cfg.Valid() && IsReset(cfg, start) && AlwaysCovered(cfg, start, cycles)
    ensures !MeterRun(cfg, start, cycles).starved
  {
    if cycles != [] {
      var before := cycles[..|cycles| - 1];
      assert forall n :: 0 <= n <= |before| ==> before[..n] == cycles[..n];
      CoveredNeverStarves(cfg, start, before);
      RunKeepsMeter(cfg, start, before);
      ExactlyOnceInOrder(cfg, start, before);
      assert before[..|before|] == before;
      StepStarves(cfg, BenchRun(cfg, start, before), MeterRun(cfg, start, before), cycles[|cycles| - 1]);
    }
  }

  /** The share of the k-th command: its own words, in the order in which they were accepted. */
  function Share(rs: seq<Request>, k: nat, words: seq<Word>): (w: seq<Word>)
    requires k < |rs| && TotalNeed(rs[..k]) + Need(rs[k]) <= |words|
    ensures |w| == Need(rs[k])
  {
    words[TotalNeed(rs[..k])..TotalNeed(rs[..k]) + Need(rs[k])]
  }

  predicate OwnWord(rs: seq<Request>, k: nat, taken: seq<Word>, accepted: seq<Word>)
    requires k < |rs|
  {
    TotalNeed(rs[..k]) + Need(rs[k]) <= |taken| <= |accepted| && Share(rs, k, taken) == Share(rs, k, accepted)
  }

  /** Each of these commands has its own words among those taken. */
  predicate OwnWords(rs: seq<Request>, taken: seq<Word>, accepted: seq<Word>) {
    forall k: nat :: k < |rs| ==> OwnWord(rs, k, taken, accepted)
  }

  lemma ShareFits(rs: seq<Request>, k: nat)
    requires k < |rs|
    ensures TotalNeed(rs[..k]) + Need(rs[k]) <= TotalNeed(rs)
  {
    assert rs[..k + 1][..k] == rs[..k];
    NeedGrows(rs[..k + 1], rs[k + 1..]);
    assert rs[..k + 1] + rs[k + 1..] == rs;
  }

  lemma SliceOfPrefix(taken: seq<Word>, accepted: seq<Word>, lo: nat, hi: nat)
    requires taken <= accepted && lo <= hi <= |taken|
    ensures taken[lo..hi] == accepted[lo..hi]
  {
  }

  lemma PrefixHasOwnWords(rs: seq<Request>, taken: seq<Word>, accepted: seq<Word>)
    requires taken <= accepted && TotalNeed(rs) <= |taken|
    ensures OwnWords(rs, taken, accepted)
  {
    forall k: nat | k < |rs|
      ensures OwnWord(rs, k, taken, accepted)
    {
      ShareFits(rs, k);
      SliceOfPrefix(taken, accepted, TotalNeed(rs[..k]), TotalNeed(rs[..k]) + Need(rs[k]));
    }
  }

  /** The words taken are the first ones accepted, and the current command takes words of its own share only. */
  predicate TakesInTurn(b: Bench, m: Meter) {
    var l := b.log.latched;
    && m.delivered <= m.accepted
    && (l != [] ==> TotalNeed(l[..|l| - 1]) <= |m.delivered| + Pending(b.state) <= TotalNeed(l))
  }

  lemma UnstarvedTakesInTurn(cfg: Core.Config, b: Bench, m: Meter)
    requires cfg.Valid() && BenchFits(cfg, b) && MeterFits(cfg, b, m) && !m.starved
    ensures TakesInTurn(b, m)
    ensures b.state.core.engine.state.Idle? ==>
              |m.delivered| == TotalNeed(b.log.latched) && OwnWords(b.log.latched, m.delivered, m.accepted)
  {
    AskedWithinShare(cfg, b, m);
    if b.state.core.engine.state.Idle? {
      PrefixHasOwnWords(b.log.latched, m.delivered, m.accepted);
    }
  }

  /**
   * On every run from reset of such a host words are taken in turn, and whenever the engine is back in IDLE
   * every command executed has had exactly its own words.
   */
  lemma WritesTakeTheirWords(cfg: Core.Config, start: Controller.State, cycles: seq<Cycle>)
    requires cfg.Valid() && IsReset(cfg, start) && AlwaysCovered(cfg, start, cycles)
    ensures var b := BenchRun(cfg, start, cycles);
      var m := MeterRun(cfg, start, cycles);
      && TakesInTurn(b, m)
      && (b.state.core.engine.state.Idle? ==>
            |m.delivered| == TotalNeed(b.log.latched) && OwnWords(b.log.latched, m.delivered, m.accepted))
  {
    CoveredNeverStarves(cfg, start, cycles);
    RunKeepsMeter(cfg, start, cycles);
    ExactlyOnceInOrder(cfg, start, cycles);
    UnstarvedTakesInTurn(cfg, BenchRun(cfg, start, cycles), MeterRun(cfg, start, cycles));
  }

  /** Conversely, once a request found the FIFO empty the commands executed have fewer words than they are due. */
  lemma StarvedFallsShort(cfg: Core.Config, start: Controller.State, cycles: seq<Cycle>)
    requires cfg.Valid() && IsReset(cfg, start) && MeterRun(cfg, start, cycles).starved
    ensures |MeterRun(cfg, start, cycles).delivered| < TotalNeed(BenchRun(cfg, start, cycles).log.latched)
    ensures !AlwaysCovered(cfg, start, cycles)
  {
    RunKeepsMeter(cfg, start, cycles);
    ExactlyOnceInOrder(cfg, start, cycles);
    AskedWithinShare(cfg, BenchRun(cfg, start, cycles), MeterRun(cfg, start, cycles));
    if AlwaysCovered(cfg, start, cycles) {
      CoveredNeverStarves(cfg, start, cycles);
    }
  }
}
