/** The PHY multiplexer: the init engine owns the pins until it is ready, then the protocol engine does. */
module Phy {
  import opened DdrBus
  import Init = InitEngine
  import Engine = ProtocolEngine

  /** A low-power mode of the protocol engine pulls CKE low. */
  function EnginePins(s: Engine.Registers): Pins {
    Pins(!(s.selfRefreshOut || s.powerDown), s.bus, s.ba, s.a)
  }

  function InitPins(s: Init.Registers): Pins { Pins(s.cke, s.bus, s.ba, s.a) }

  function PadPins(init: Init.Registers, engine: Engine.Registers): Pins {
    if init.ready then EnginePins(engine) else InitPins(init)
  }
}
