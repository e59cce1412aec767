/** The pin-level refresh monitor: cycles with CKE high between two AUTO REFRESH commands. */
module RefreshMonitor {
  import opened DdrBus

  /** The permitted interval; a minimum of zero switches the lower check off. */
  datatype Limits = Limits(min: int, max: int)

  const STRICT := Limits(0, 3900)
  const RELAXED := Limits(0, 100_000)

  datatype Monitor = Monitor(cycles: int, seen: bool)

  const RESET := Monitor(0, false)

  predicate IsRefresh(p: Pins) { Decode(p) == CmdRef }

  function Observe(limits: Limits, m: Monitor, ready: bool, p: Pins): Monitor {
    if !ready then RESET
    else if IsRefresh(p) then Monitor(0, true)
    else if p.cke && m.cycles < limits.max * 4 then m.(cycles := m.cycles + 1)
    else m
  }

  predicate TooSoon(limits: Limits, m: Monitor, ready: bool, p: Pins) {
    ready && IsRefresh(p) && m.seen && limits.min > 0 && m.cycles + 1 < limits.min
  }

  predicate TooLate(limits: Limits, m: Monitor, ready: bool, p: Pins) {
    ready && IsRefresh(p) && m.seen && m.cycles + 1 > limits.max
  }

  /** The clocked block: the counter advances first, a refresh clears it again. */
  class Block {
    const limits: Limits
    var cyclesSinceRefresh: int
    var haveSeenRefresh: bool

    ghost function Snapshot(): Monitor
      reads this
    {
      Monitor(cyclesSinceRefresh, haveSeenRefresh)
    }

    constructor (limits: Limits)
      ensures this.limits == limits && Snapshot() == RESET
    {
      this.limits := limits;
      cyclesSinceRefresh, haveSeenRefresh := 0, false;
    }

    /** One clock edge; `fatal` is the monitor's stop. */
    method Clock(reset: bool, ready: bool, p: Pins) returns (fatal: bool)
      modifies this
      ensures Snapshot() == if reset then RESET else Observe(limits, old(Snapshot()), ready, p)
      ensures fatal <==> !reset && (TooSoon(limits, old(Snapshot()), ready, p) || TooLate(limits, old(Snapshot()), ready, p))
    {
      fatal := false;
      if reset || !ready {
        cyclesSinceRefresh, haveSeenRefresh := 0, false;
        return;
      }
      var interval := cyclesSinceRefresh + 1;
      if p.cke && cyclesSinceRefresh < limits.max * 4 {
        cyclesSinceRefresh := cyclesSinceRefresh + 1;
      }
      if IsRefresh(p) {
        if haveSeenRefresh {
          if limits.min > 0 && interval < limits.min {
            fatal := true;
          }
          if interval > limits.max {
            fatal := true;
          }
        }
        haveSeenRefresh := true;
        cyclesSinceRefresh := 0;
      }
    }
  }
}
