/** What the refresh and power monitors find, in terms of the pins since READY. */
module RefreshHistory {
  import opened DdrBus
  import opened RefreshMonitor
  import PowerMonitor

  /** The monitor after these cycles of a ready device. */
  function Watched(limits: Limits, pins: seq<Pins>): Monitor {
    if pins == [] then RESET else Observe(limits, Watched(limits, pins[..|pins| - 1]), true, pins[|pins| - 1])
  }

  /** Cycles with CKE high from k on. */
  function AwakeSince(pins: seq<Pins>, k: nat): nat
    requires k <= |pins|
  {
    if k == |pins| then 0 else AwakeSince(pins[..|pins| - 1], k) + if pins[|pins| - 1].cke then 1 else 0
  }

  /** The last refresh was at k. */
  predicate LastRefresh(pins: seq<Pins>, k: nat) {
    k < |pins| && IsRefresh(pins[k]) && forall j :: k < j < |pins| ==> !IsRefresh(pins[j])
  }

  predicate NoRefresh(pins: seq<Pins>) { forall j :: 0 <= j < |pins| ==> !IsRefresh(pins[j]) }

  function Capped(limits: Limits, x: nat): int { if x < limits.max * 4 then x else limits.max * 4 }

  lemma {:induction false} MonitorMeans(limits: Limits, pins: seq<Pins>)
    requires limits.max > 0
    ensures Watched(limits, pins).seen <==> !NoRefresh(pins)
    ensures NoRefresh(pins) ==> Watched(limits, pins).cycles == Capped(limits, AwakeSince(pins, 0))
    ensures forall k: nat :: LastRefresh(pins, k) ==> Watched(limits, pins).cycles == Capped(limits, AwakeSince(pins, k + 1))
  {
    if pins != [] {
      var before := pins[..|pins| - 1];
      var p := pins[|pins| - 1];
      MonitorMeans(limits, before);
      assert NoRefresh(pins) <==> NoRefresh(before) && !IsRefresh(p) by {
        if NoRefresh(pins) {
          assert !IsRefresh(pins[|pins| - 1]);
          forall j | 0 <= j < |before| ensures !IsRefresh(before[j]) { assert before[j] == pins[j]; }
        }
      }
      forall k: nat | LastRefresh(pins, k)
        ensures Watched(limits, pins).cycles == Capped(limits, AwakeSince(pins, k + 1))
      {
        if k < |before| {
          assert LastRefresh(before, k);
        }
      }
    }
  }

  /**
   * With a refresh at k behind it, the monitor stops on the next refresh exactly if the cycles with CKE high from one
   * to the other, the last one included, are more than the limit, or fewer than a minimum that is switched on.
   */
  lemma VerdictIsHistory(limits: Limits, pins: seq<Pins>, k: nat, p: Pins)
    requires limits.max > 0 && limits.min <= limits.max && LastRefresh(pins, k)
    ensures var m := Watched(limits, pins);
      && (TooLate(limits, m, true, p) <==> IsRefresh(p) && AwakeSince(pins, k + 1) + 1 > limits.max)
      && (TooSoon(limits, m, true, p) <==> IsRefresh(p) && limits.min > 0 && AwakeSince(pins, k + 1) + 1 < limits.min)
  {
    MonitorMeans(limits, pins);
    assert IsRefresh(pins[k]);
  }

  /** The first refresh after READY is not judged. */
  lemma FirstIsFree(limits: Limits, pins: seq<Pins>, p: Pins)
    requires limits.max > 0 && NoRefresh(pins)
    ensures !TooLate(limits, Watched(limits, pins), true, p) && !TooSoon(limits, Watched(limits, pins), true, p)
  {
    MonitorMeans(limits, pins);
  }

  /** With CKE low the power monitor lets a selected device see NOP and nothing else, with CKE high anything. */
  lemma PowerVerdict(p: Pins)
    ensures PowerMonitor.Violates(p) <==> !p.cke && !p.bus.csbar && p.bus != NOP
  {
  }
}
