/** The pin-level power monitor: with CKE low a selected device may only see NOP. No stored state. */
module PowerMonitor {
  import opened DdrBus

  predicate Violates(p: Pins) {
    !p.cke && !p.bus.csbar && !(p.bus.rasbar && p.bus.casbar && p.bus.webar)
  }
}
