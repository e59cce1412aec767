/**
 * What the timing monitor's registers mean: its rules in terms of the commands on the pins since reset, without
 * timers, stamps or edge detectors.
 */
module TimingHistory {
  import opened DdrBus
  import opened TimingChecker

  // ---------------------------------------------------------------- events

  /** Nothing happened in the last d cycles, and there were as many. */
  predicate QuietFor(events: seq<bool>, d: int) {
    |events| >= d && forall j :: 0 <= j < |events| && j >= |events| - d ==> !events[j]
  }

  lemma QuietLonger(events: seq<bool>, x: bool, d: nat)
    ensures QuietFor(events + [x], d + 1) <==> !x && QuietFor(events, d)
  {
    var more := events + [x];
    if QuietFor(more, d + 1) {
      assert !more[|events|];
      forall j | 0 <= j < |events| && j >= |events| - d
        ensures !events[j]
      {
        assert !more[j];
      }
    }
  }

  /** A saturating timer that restarts with each event. */
  predicate Tracks(timer: int, events: seq<bool>, max: int) {
    0 <= timer <= max && forall d: int :: 0 <= d <= max ==> (timer >= d <==> QuietFor(events, d))
  }

  lemma TimerTracks(timer: int, events: seq<bool>, max: int, x: bool)
    requires Tracks(timer, events, max) && max >= 0
    ensures Tracks(if x then 0 else Saturate(timer, max), events + [x], max)
  {
    var next := if x then 0 else Saturate(timer, max);
    forall d: int | 0 <= d <= max
      ensures next >= d <==> QuietFor(events + [x], d)
    {
      if d > 0 {
        QuietLonger(events, x, d - 1);
        assert timer >= d - 1 <==> QuietFor(events, d - 1);
      }
    }
  }

  // ---------------------------------------------------------------- the pins since reset

  /** A run of the same command counts once, when it begins. */
  predicate Begins(pins: seq<Pins>, j: nat, c: Command)
    requires j < |pins|
  {
    Decode(pins[j]) == c && (j == 0 || Decode(pins[j - 1]) != c)
  }

  function Activations(pins: seq<Pins>): (e: seq<bool>)
    ensures |e| == |pins|
  {
    seq(|pins|, j requires 0 <= j < |pins| => Begins(pins, j, CmdAct))
  }

  function Refreshes(pins: seq<Pins>): (e: seq<bool>)
    ensures |e| == |pins|
  {
    seq(|pins|, j requires 0 <= j < |pins| => Begins(pins, j, CmdRef))
  }

  function ActivationsOf(pins: seq<Pins>, b: Bank): (e: seq<bool>)
    ensures |e| == |pins|
  {
    seq(|pins|, j requires 0 <= j < |pins| => Begins(pins, j, CmdAct) && pins[j].ba == b)
  }

  /** The monitor takes every precharge for one of the bank on the pins. */
  function PrechargesOf(pins: seq<Pins>, b: Bank): (e: seq<bool>)
    ensures |e| == |pins|
  {
    seq(|pins|, j requires 0 <= j < |pins| => Decode(pins[j]) == CmdPre && pins[j].ba == b)
  }

  function RowEventsOf(pins: seq<Pins>, b: Bank): (e: seq<bool>)
    ensures |e| == |pins|
  {
    seq(|pins|, j requires 0 <= j < |pins| => ActivationsOf(pins, b)[j] || PrechargesOf(pins, b)[j])
  }

  /** The row opened by the activation at j is open still. */
  predicate OpenSince(pins: seq<Pins>, b: Bank, j: nat)
    requires j < |pins|
  {
    ActivationsOf(pins, b)[j] && forall k :: j < k < |pins| ==> !PrechargesOf(pins, b)[k]
  }

  predicate RowOpen(pins: seq<Pins>, b: Bank) { exists j :: 0 <= j < |pins| && OpenSince(pins, b, j) }

  /** When the activations began. */
  function Starts(pins: seq<Pins>): seq<int> {
    if pins == [] then []
    else Starts(pins[..|pins| - 1]) + if Begins(pins, |pins| - 1, CmdAct) then [|pins| - 1] else []
  }

  /** The start of the activation k before the last one, zero if there were not as many. */
  function StartBefore(pins: seq<Pins>, k: nat): int {
    if k < |Starts(pins)| then Starts(pins)[|Starts(pins)| - 1 - k] else 0
  }

  /** The monitor after these cycles. */
  function Watched(pins: seq<Pins>): (m: Monitor)
    ensures m.Valid()
  {
    if pins == [] then RESET else Observe(Watched(pins[..|pins| - 1]), pins[|pins| - 1])
  }

  // ---------------------------------------------------------------- one more cycle

  lemma EventsGrow(pins: seq<Pins>, p: Pins, b: Bank, act: bool, ref: bool)
    requires act == Begins(pins + [p], |pins|, CmdAct) && ref == Begins(pins + [p], |pins|, CmdRef)
    ensures Activations(pins + [p]) == Activations(pins) + [act]
    ensures Refreshes(pins + [p]) == Refreshes(pins) + [ref]
    ensures ActivationsOf(pins + [p], b) == ActivationsOf(pins, b) + [act && p.ba == b]
    ensures PrechargesOf(pins + [p], b) == PrechargesOf(pins, b) + [Decode(p) == CmdPre && p.ba == b]
    ensures RowEventsOf(pins + [p], b) == RowEventsOf(pins, b) + [(act || Decode(p) == CmdPre) && p.ba == b]
  {
    var more := pins + [p];
    forall j | 0 <= j < |pins|
      ensures Begins(more, j, CmdAct) == Begins(pins, j, CmdAct) && Begins(more, j, CmdRef) == Begins(pins, j, CmdRef)
      ensures more[j] == pins[j]
    {
    }
  }

  predicate BankMeans(pins: seq<Pins>, b: Bank, t: BankTimers) {
    && Tracks(t.sinceAct, ActivationsOf(pins, b), BYTE_MAX) && Tracks(t.sincePre, PrechargesOf(pins, b), BYTE_MAX)
    && (t.rowActive <==> RowOpen(pins, b)) && (t.rowActive ==> Tracks(t.activeTime, RowEventsOf(pins, b), BYTE_MAX))
  }

  lemma StillOpen(pins: seq<Pins>, p: Pins, b: Bank, j: nat, act: bool)
    requires j <= |pins| && OpenSince(pins + [p], b, j)
    requires act == Begins(pins + [p], |pins|, CmdAct) && !(act && p.ba == b)
    ensures j < |pins| && OpenSince(pins, b, j)
  {
    var more := pins + [p];
    EventsGrow(pins, p, b, act, Begins(more, |pins|, CmdRef));
    assert ActivationsOf(more, b)[j];
    forall k | j < k < |pins|
      ensures !PrechargesOf(pins, b)[k]
    {
      assert !PrechargesOf(more, b)[k];
    }
  }

  lemma RowOpenMoves(pins: seq<Pins>, p: Pins, b: Bank, act: bool)
    requires act == (Begins(pins + [p], |pins|, CmdAct) && p.ba == b)
    ensures RowOpen(pins + [p], b) <==> act || (RowOpen(pins, b) && !(Decode(p) == CmdPre && p.ba == b))
  {
    var more := pins + [p];
    var pre := Decode(p) == CmdPre && p.ba == b;
    EventsGrow(pins, p, b, Begins(more, |pins|, CmdAct), Begins(more, |pins|, CmdRef));
    if act {
      assert OpenSince(more, b, |pins|);
    } else if !pre {
      if j :| 0 <= j < |pins| && OpenSince(pins, b, j) {
        assert OpenSince(more, b, j);
      }
      if j :| 0 <= j < |more| && OpenSince(more, b, j) {
        StillOpen(pins, p, b, j, Begins(more, |pins|, CmdAct));
      }
    } else {
      forall j | 0 <= j < |more|
        ensures !OpenSince(more, b, j)
      {
        assert j < |pins| ==> PrechargesOf(more, b)[|pins|];
      }
    }
  }

  /** The last thing that happened to an open row is its activation, so a restart tracks from here. */
  lemma FreshTracks(events: seq<bool>, max: int)
    requires max >= 0
    ensures Tracks(0, events + [true], max)
  {
    forall d: int | 0 <= d <= max
      ensures 0 >= d <==> QuietFor(events + [true], d)
    {
      if d > 0 {
        QuietLonger(events, true, d - 1);
      }
    }
  }

  lemma BankMoves(pins: seq<Pins>, p: Pins, b: Bank, t: BankTimers, act: bool)
    requires BankMeans(pins, b, t) && act == Begins(pins + [p], |pins|, CmdAct)
    ensures BankMeans(pins + [p], b, NextBank(t, p.ba == b, act, Decode(p) == CmdPre))
  {
    var pre := Decode(p) == CmdPre;
    EventsGrow(pins, p, b, act, Begins(pins + [p], |pins|, CmdRef));
    TimerTracks(t.sinceAct, ActivationsOf(pins, b), BYTE_MAX, act && p.ba == b);
    TimerTracks(t.sincePre, PrechargesOf(pins, b), BYTE_MAX, pre && p.ba == b);
    RowOpenMoves(pins, p, b, act && p.ba == b);
    FreshTracks(RowEventsOf(pins, b), BYTE_MAX);
    if t.rowActive {
      TimerTracks(t.activeTime, RowEventsOf(pins, b), BYTE_MAX, (act || pre) && p.ba == b);
    }
  }

  predicate Happened(events: seq<bool>) { exists j :: 0 <= j < |events| && events[j] }

  lemma HappenedMoves(events: seq<bool>, x: bool)
    ensures Happened(events + [x]) <==> Happened(events) || x
  {
    var more := events + [x];
    if x {
      assert more[|events|];
    } else if j :| 0 <= j < |events| && events[j] {
      assert more[j];
    }
  }

  predicate CountersMean(pins: seq<Pins>, m: Monitor) {
    && Tracks(m.sinceRef, Refreshes(pins), HALF_MAX) && (m.haveRef <==> Happened(Refreshes(pins)))
    && Tracks(m.sinceLastAct, Activations(pins), HALF_MAX) && (m.haveAct <==> Happened(Activations(pins)))
  }

  predicate StampsMean(pins: seq<Pins>, m: Monitor) {
    && m.cycle == |pins| && m.prev == (if pins == [] then CmdNop else Decode(pins[|pins| - 1]))
    && m.stamp3 == StartBefore(pins, 0) && m.stamp2 == StartBefore(pins, 1)
    && m.stamp1 == StartBefore(pins, 2) && m.stamp0 == StartBefore(pins, 3)
  }

  predicate Means(pins: seq<Pins>, m: Monitor)
    requires m.Valid()
  {
    && (forall b: Bank :: BankMeans(pins, b, m.banks[b])) && CountersMean(pins, m) && StampsMean(pins, m)
  }

  lemma PulsesBegin(pins: seq<Pins>, m: Monitor, p: Pins)
    requires StampsMean(pins, m)
    ensures ActPulse(m, p) <==> Begins(pins + [p], |pins|, CmdAct)
    ensures RefPulse(m, p) <==> Begins(pins + [p], |pins|, CmdRef)
  {
  }

  lemma CountersMove(pins: seq<Pins>, m: Monitor, p: Pins)
    requires m.Valid() && CountersMean(pins, m) && StampsMean(pins, m)
    ensures CountersMean(pins + [p], Observe(m, p))
  {
    PulsesBegin(pins, m, p);
    EventsGrow(pins, p, 0, ActPulse(m, p), RefPulse(m, p));
    TimerTracks(m.sinceRef, Refreshes(pins), HALF_MAX, RefPulse(m, p));
    TimerTracks(m.sinceLastAct, Activations(pins), HALF_MAX, ActPulse(m, p));
    HappenedMoves(Refreshes(pins), RefPulse(m, p));
    HappenedMoves(Activations(pins), ActPulse(m, p));
  }

  lemma StampsMove(pins: seq<Pins>, m: Monitor, p: Pins)
    requires m.Valid() && StampsMean(pins, m)
    ensures StampsMean(pins + [p], Observe(m, p))
  {
    PulsesBegin(pins, m, p);
    assert (pins + [p])[..|pins|] == pins;
  }

  lemma BanksMove(pins: seq<Pins>, m: Monitor, p: Pins, b: Bank)
    requires m.Valid() && Means(pins, m)
    ensures BankMeans(pins + [p], b, Observe(m, p).banks[b])
  {
    PulsesBegin(pins, m, p);
    BankMoves(pins, p, b, m.banks[b], ActPulse(m, p));
    assert Observe(m, p).banks[b] == NextBank(m.banks[b], b == p.ba, ActPulse(m, p), Decode(p) == CmdPre);
  }

  lemma {:induction false} MonitorMeans(pins: seq<Pins>)
    ensures Means(pins, Watched(pins))
  {
    if pins != [] {
      var before := pins[..|pins| - 1];
      var p := pins[|pins| - 1];
      MonitorMeans(before);
      assert before + [p] == pins;
      CountersMove(before, Watched(before), p);
      StampsMove(before, Watched(before), p);
      forall b: Bank
        ensures BankMeans(pins, b, Watched(pins).banks[b])
      {
        BanksMove(before, Watched(before), p, b);
      }
    }
  }

  // ---------------------------------------------------------------- the rules

  /** One of the last d cycles saw such an event, or there were not as many since reset. */
  predicate Within(events: seq<bool>, d: int) { !QuietFor(events, d) }

  predicate ActBegins(pins: seq<Pins>, p: Pins) { Begins(pins + [p], |pins|, CmdAct) }

  predicate RefBegins(pins: seq<Pins>, p: Pins) { Begins(pins + [p], |pins|, CmdRef) }

  /** An ACTIVATE begins within 4 cycles of a precharge of its bank. */
  predicate EarlyActivate(pins: seq<Pins>, p: Pins) { ActBegins(pins, p) && Within(PrechargesOf(pins, p.ba), 4) }

  /** An ACTIVATE begins within 2 cycles of the one before. */
  predicate CloseActivate(pins: seq<Pins>, p: Pins) {
    ActBegins(pins, p) && Happened(Activations(pins)) && Within(Activations(pins), 2)
  }

  /** An ACTIVATE begins less than 16 cycles, on a 32-bit clock, after the fourth last one; a stamp of zero is none. */
  predicate FifthActivate(pins: seq<Pins>, p: Pins) {
    && ActBegins(pins, p) && StartBefore(pins, 3) % 0x1_0000_0000 != 0
    && (|pins| - StartBefore(pins, 3)) % 0x1_0000_0000 < 16
  }

  /** A precharge comes within 20 cycles of the activation of the row it closes. */
  predicate EarlyPrecharge(pins: seq<Pins>, p: Pins) {
    Decode(p) == CmdPre && RowOpen(pins, p.ba) && Within(RowEventsOf(pins, p.ba), 20)
  }

  /** A READ or WRITE comes within 4 cycles of the activation of the row it uses. */
  predicate EarlyColumn(pins: seq<Pins>, p: Pins) {
    (Decode(p) == CmdRead || Decode(p) == CmdWrite) && RowOpen(pins, p.ba) && Within(ActivationsOf(pins, p.ba), 4)
  }

  /** A REFRESH begins within 100 cycles of the one before. */
  predicate CloseRefresh(pins: seq<Pins>, p: Pins) {
    RefBegins(pins, p) && Happened(Refreshes(pins)) && Within(Refreshes(pins), 100)
  }

  lemma BankRules(pins: seq<Pins>, m: Monitor, p: Pins)
    requires m.Valid() && BankMeans(pins, p.ba, m.banks[p.ba]) && StampsMean(pins, m)
    ensures BreaksTrp(m, p) <==> EarlyActivate(pins, p)
    ensures BreaksTras(m, p) <==> EarlyPrecharge(pins, p)
    ensures BreaksTrcd(m, p) <==> EarlyColumn(pins, p)
  {
    PulsesBegin(pins, m, p);
    BankVerdict(pins, m.banks[p.ba], p.ba);
  }

  lemma CounterRules(pins: seq<Pins>, m: Monitor, p: Pins)
    requires CountersMean(pins, m) && StampsMean(pins, m)
    ensures BreaksTrrd(m, p) <==> CloseActivate(pins, p)
    ensures BreaksTrfc(m, p) <==> CloseRefresh(pins, p)
    ensures BreaksTfaw(m, p) <==> FifthActivate(pins, p)
  {
    PulsesBegin(pins, m, p);
    CounterVerdict(pins, m);
  }

  /** For every history, the monitor stops on the next pins exactly if one of the six rules is broken. */
  lemma VerdictIsHistory(pins: seq<Pins>, p: Pins)
    ensures Violates(Watched(pins), p) <==>
      || EarlyActivate(pins, p) || EarlyPrecharge(pins, p) || EarlyColumn(pins, p)
      || CloseActivate(pins, p) || CloseRefresh(pins, p) || FifthActivate(pins, p)
  {
    MonitorMeans(pins);
    BankRules(pins, Watched(pins), p);
    CounterRules(pins, Watched(pins), p);
  }

  lemma BankVerdict(pins: seq<Pins>, t: BankTimers, b: Bank)
    requires BankMeans(pins, b, t)
    ensures t.sincePre < 4 <==> Within(PrechargesOf(pins, b), 4)
    ensures t.sinceAct < 4 <==> Within(ActivationsOf(pins, b), 4)
    ensures t.rowActive ==> (t.activeTime < 20 <==> Within(RowEventsOf(pins, b), 20))
  {
    assert t.sincePre >= 4 <==> QuietFor(PrechargesOf(pins, b), 4);
    assert t.sinceAct >= 4 <==> QuietFor(ActivationsOf(pins, b), 4);
    if t.rowActive {
      assert t.activeTime >= 20 <==> QuietFor(RowEventsOf(pins, b), 20);
    }
  }

  lemma CounterVerdict(pins: seq<Pins>, m: Monitor)
    requires CountersMean(pins, m)
    ensures m.sinceRef < 100 <==> Within(Refreshes(pins), 100)
    ensures m.sinceLastAct < 2 <==> Within(Activations(pins), 2)
  {
    assert m.sinceRef >= 100 <==> QuietFor(Refreshes(pins), 100);
    assert m.sinceLastAct >= 2 <==> QuietFor(Activations(pins), 2);
  }
}
