/** The DDR2 command pins and what the pin-level observers make of them. */
module DdrBus {

  /** The four command lines; `true` is a high level, so all of them are active low. */
  datatype Bus = Bus(csbar: bool, rasbar: bool, casbar: bool, webar: bool)

  const DESELECT := Bus(true, true, true, true)
  const NOP := Bus(false, true, true, true)
  const ACTIVATE := Bus(false, false, true, true)
  const PRECHARGE := Bus(false, false, true, false)
  const REFRESH := Bus(false, false, false, true)
  const READ := Bus(false, true, false, true)
  const WRITE := Bus(false, true, false, false)
  const MODE_SET := Bus(false, false, false, false)

  /** A10 high: PRECHARGE applies to all banks. */
  const PRECHARGE_ALL := 0x400

  type Bank = b: int | 0 <= b < 4

  /** What the sixteen DQ lines carry. */
  type Word = w: int | 0 <= w < 0x1_0000

  /** What the memory device sees in one clock cycle. */
  datatype Pins = Pins(cke: bool, bus: Bus, ba: Bank, a: int)

  /** The commands told apart by the monitors. Load-mode is a no-operation to all of them. */
  datatype Command = CmdNop | CmdAct | CmdPre | CmdRef | CmdRead | CmdWrite

  function Decode(p: Pins): Command {
    if !p.cke || p.bus.csbar then CmdNop
    else if !p.bus.rasbar && p.bus.casbar && p.bus.webar then CmdAct
    else if !p.bus.rasbar && p.bus.casbar && !p.bus.webar then CmdPre
    else if !p.bus.rasbar && !p.bus.casbar && p.bus.webar then CmdRef
    else if p.bus.rasbar && !p.bus.casbar && p.bus.webar then CmdRead
    else if p.bus.rasbar && !p.bus.casbar && !p.bus.webar then CmdWrite
    else CmdNop
  }
}
