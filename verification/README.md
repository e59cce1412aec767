# Verified model of the DDR2 controller

This project models the DDR2 controller as clocked state machines and proves what its own monitors,
comments and documents promise, on every run. One function call `Step` is one clock edge: all right-hand
sides read the registers before the edge, and pins, strobes and status flags are registers of their own,
so they lag the state by a cycle as they do in the hardware. Monitors are second state machines on the same
pins, and their `$fatal` is a predicate (`Violates`, `TooLate`, ...) that has to be false.

Everything below holds for all command streams, all low-power, DLL and reset inputs and all parameter values
unless a condition is named. Where the code does less than its comments say, the model follows the code, a
condition that a caller can check says exactly when the property holds, and a second theorem shows that it
fails otherwise.

## How it is organised

| files | part of the system |
|---|---|
| `DdrBus`, `Phy` | command pins, their decoding, the pin multiplexer and the CKE override |
| `ProtocolEngine`, `AddressMap`, `EngineInvariant`, `EngineBlock` | the protocol engine: next value of every register; which place an address names; what every reachable state satisfies; the clocked block in the form of the source, proved equal to the step |
| `InitEngine`, `InitSequence`, `InitPads` | the initialisation engine, its exact command schedule, and the same on the pads |
| `Arbitration`, `Maintenance`, `Visits`, `CommandStart`, `HostWires` | what IDLE decides, and what follows cycle by cycle: refresh, DLL change, self-refresh, power-down, the start of a command |
| `Core`, `Controller`, `ControllerBlock`, `System` | both engines with the multiplexer; with the three FIFOs and the read path; with the memory model |
| `Fifo` | bounded queue, and the ring of registers that refines it |
| `TimingChecker`, `TimingSafety`, `TimingRuns`, `TimingExact`, `TimingTight`, `TimingHistory`, `TimingOnPins`, `HostTiming`, `ActSpacing` | the timing monitor, what it means for the commands on the pins, and timing safety |
| `TurnaroundChecker`, `TurnaroundHistory`, `TurnaroundSafety`, `TurnaroundOnPins` | the same for the turnaround monitor |
| `RefreshMonitor`, `RefreshHistory`, `RefreshBound`, `RefreshAfterAbort`, `RefreshStarvation` | the refresh monitor, when refreshes come, and what puts them off |
| `AutoSelfRefresh`, `QuietWindow` | automatic self-refresh |
| `PowerMonitor`, `LowPower` | self-refresh, power-down, the DLL interlock |
| `Progress`, `Service` | ranking function; commands are served |
| `CommandTrace`, `WriteData` | everything a single command does, cycle by cycle; write data conservation |
| `CommandOrder` (in `Controller`) | accepted commands run exactly once, in order |
| `SimpleMem`, `DeviceBursts`, `ScalarBurst`, `ScalarTraffic`, `ScalarAliasing` | the memory model, scalar traffic as an abstract memory, and which addresses share its cells |
| `Ecc` | the (72,64) code |

The specification of each clocked block is a function on values (`Step`, `Observe`, `Clocked`); the `Block`
and `Ring` classes are the blocks themselves, with registers and arrays updated in place, and every `Clock`
method ensures that the state after the edge is that function of the state before. The theorems are about
runs of the functions.

## Results worth knowing

- tRCD, tRP and tRRD hold for any host and any parameters, tRFC too if the initial refresh wait is at least 100.
  tRAS holds exactly for commands that do not return early: a reserved code, a block read without room, or a read
  with a read wait below 3 (scalar) or 4 (block) can be made to break it by the very next request. The tFAW and
  turnaround rules are broken by nothing but the 32-bit wrap of the monitors' own stamps.
- With the default parameters a host that keeps FETCHING and enqueues only the four commands breaks none of the timing
  rules for 2^32 cycles, whatever else it does.
- Refreshes come at most 2589 cycles (default; limit 3900) after the last reload of the refresh counter, power-down
  and self-refresh visits included. Each self-refresh entered while a refresh is due adds exactly TXSR + 13 = 113
  cycles, so a host that insists on self-refresh after every visit starves the monitor's refresh.
- Calling off a low-power entry reloads the counter without a refresh. One such abort e cycles after a refresh makes
  the next refresh late if e + 2312 >= 3900, and leaves it in time if e + 2589 <= 3900 (default parameters, no
  further entry).
- Calling off self-refresh in the second cycle of its entry state gives a single cycle of CKE low, after which the
  device gets no exit time; no other edge shortens it.
- A host whose accepted words always cover the commands it has enqueued never starves a write, and every command
  takes exactly its own words.
- Commands are served within a bound if `REF_THRESH + 100 <= REF_CNT_INIT` (or the threshold is 0). Otherwise each
  refresh is followed by the next one for ever, unless the host requests self-refresh and calls it off.
- Automatic self-refresh is requested on some run exactly if its idle window fits between two refreshes. With
  the defaults it does not: 8000 is cut to 12 bits, 3904, and only 2300 cycles are available. Test 8 of
  `test/TESTING.md` (line 85) expects it.
- The engine's low-power assertion fires on every entry into self-refresh, in the second cycle of `SREF_ENTER`.
- A reset during a DLL change wedges the DLL interlock for good.
- The error-correcting code detects every single and double error except the pair {data bit 0, check bit 6},
  but never corrects a data bit: the decoder inverts position syndrome - 1, and data bit i has syndrome 64 + i.
- The memory model drives seven of the eight words of a read burst, and looks at twelve of the twenty-five address
  bits: addresses that agree in bits 16:12 and 6:0 share a cell.
- The initialisation never waits tRP (`TRP_CYCLES` is never loaded), and a non-zero final wait swallows the ZQ
  window.

## Assumptions

- Default geometry: 25-bit addresses, 13 row, 10 column, 2 bank bits; one rank, so the CS# vector is one line.
- Reset leaves `dll_in_progress`, `dll_mode_reg`, `dll_tdllk_cnt`, `dll_busy_o`, `idle_quiet_cnt` and
  `auto_selfref_req` alone. Their first values are arbitrary; no theorem assumes anything about them.
- The monitors' limits are those of `test/ddr2_timing_config.vh`.
- Cycle counters of the timing and turnaround monitors count without bound in the specification; the rules read
  them through their 32-bit registers, and the `Block` classes hold only the wrapped values.
- A word read off undriven DQ lines is arbitrary.

## Where documents and code differ

- `docs/DDR2.md:443-452` gives a refresh threshold of 100 and `docs/DDR2.md:441` a tRFC wait of 55; the code has
  1600 and 99. `docs/DDR2.md:412-413` gives 399 cycles between the initial refreshes; the code has 100.
- `README.md:21` promises block reads of 8 to 32 words; a block read issues one READ, returns no word and goes
  back to IDLE through a state without an arm (`dut/ddr2_protocol_engine.v:694-705`, `1054`).
- The comment in `IDLE` names power-down before the DLL (`dut/ddr2_protocol_engine.v:424-429`); the code looks at the
  DLL first. "Drive one word per clk for 8 beats" (`test/ddr2_simple_mem.v:277`) lets go of the lines after seven.
- The comment "A10=1 auto precharge" (`dut/ddr2_protocol_engine.v:566`) is about A[0]; the memory takes the
  column from A[9:1].

## Model

| member | source | states |
|---|---|---|
| EngineBlock.Block.Clock | dut/ddr2_protocol_engine.v:318-1057 | the clocked block with its registers updated in place, reset included, is one step of the specification |
| AddressMap.AddressSplits | dut/ddr2_protocol_engine.v:281-293 | every address is put together from its 13-bit row, 2-bit bank and 10-bit column again, so no two addresses name one place |
| AddressMap.PlacesHaveAddresses | dut/ddr2_protocol_engine.v:281-293 | and every place has an address |
| AddressMap.ColumnsOnPins | dut/ddr2_protocol_engine.v:295-299 | A[9:1] carries the column, eight further on with each sub-burst, modulo 512; A[0] is the flag and A10 is low |
| EngineInvariant.StepKeepsInv | dut/ddr2_protocol_engine.v:318-1057 | every edge keeps the invariant: counts within what their state was entered with, states only on behalf of their commands, ACT gap, mode flags tied to their states |
| Core.RunFits | dut/ddr2_phy.v:64-80 | on every run the invariant holds, the protocol engine rests until READY, and READY means the init engine has finished |
| Arbitration.IdleDecides | dut/ddr2_protocol_engine.v:418-463 | for all requests at once, in terms of wires and registers: which of self-refresh, refresh, DLL change, power-down, command or nothing IDLE starts |
| Arbitration.DllBeatsPowerDown | dut/ddr2_protocol_engine.v:436-453 | with both requested the DLL goes first, unless a command is waiting |
| Maintenance.ErrandsRun | dut/ddr2_protocol_engine.v:753-1052 | on every run, once IDLE has decided: two beats of PRECHARGE-all, eight idle cycles, then one REFRESH and IDLE after 111 cycles; or two beats of MODE_SET to bank 0 with the value of the mode requested, and IDLE after the lock time + 17, DLL_BUSY up from the second cycle on; or CKE falls 10 (power-down) or 12 (self-refresh) cycles after the first and stays low with NOP until the exit is requested |
| Visits.VisitsEnd | dut/ddr2_protocol_engine.v:861-978 | from the exit request on: CKE rises at once or one cycle later, nothing but NOP for the exit wait, IDLE after exactly one cycle more with a refresh due |
| Visits.FirstCommandAfterVisit | dut/ddr2_protocol_engine.v:895-896 | the exit times are met without a cycle to spare: the next PRECHARGE is on the pads two cycles after IDLE |
| HostWires.HostErrandsRun | dut/ddr2_controller.v:385-430 | the same at the controller's boundary: host wires, queue state and refresh counter decide, and the pads show what they should |
| HostWires.HostVisitsEnd | dut/ddr2_protocol_engine.v:861-978 | and a low-power visit ends when the host asks for its end |
| HostWires.HostInitialises | dut/ddr2_init_engine.v:156-492 | and the host's start request initialises the device on schedule, with READY at exactly the latency |
| CommandStart.CommandsAreFetched | dut/ddr2_protocol_engine.v:457-472 | a command IDLE decides for is asked from the FIFO once, with two cycles to answer |
| CommandStart.CommandsOpenRows | dut/ddr2_protocol_engine.v:473-505 | as soon as the ACT gap allows, the command on the FIFO outputs is latched, with ACTIVATE to address bits 4:3 and 24:12 on the pads one cycle later |
| CommandStart.GivenUpAfterActivate | dut/ddr2_protocol_engine.v:509-543 | a block read is given up exactly if its words and those waiting for the host make 64 or more; NOP and reserved codes always, other commands never |
| TimingChecker.Block.Clock | test/ddr2_timing_checker.v:148-272 | the monitor with its arrays, loops and 32-bit stamps: timers run, the command's bank restarts, stops exactly when a rule is broken |
| TimingChecker.Block.Check | test/ddr2_timing_checker.v:187-267 | the 32-bit comparisons on the registers decide the rules of the specification |
| TimingChecker.Block.ShiftWindow | test/ddr2_timing_checker.v:211-215 | the window of the last four activations moves by one |
| TimingHistory.VerdictIsHistory | test/ddr2_timing_checker.v:148-272 | for every history of pins, without timers or stamps: the monitor stops exactly on an ACTIVATE too soon after a precharge of its bank, the ACTIVATE before or the fourth last one, a precharge, READ or WRITE too soon after its row was opened, or a REFRESH too soon after the one before |
| TimingOnPins.CommandsKeepTheirDistance | test/ddr2_timing_checker.v:188-267 | hence on every run of less than 2^32 cycles without early return none of these six happens on the pins |
| TimingSafety.UnconditionalRules | test/ddr2_timing_checker.v:188-267 | no edge of the engine breaks tRCD, tRP or tRRD, for any command code, nor tRFC once the last refresh is accounted for; tFAW only by wrapped stamps |
| TimingRuns.RunFits | test/ddr2_timing_checker.v:188-267 | on every run from reset of init engine, engine, multiplexer and monitor tRCD, tRP and tRRD hold, tRFC given an initial refresh wait of at least 100, tFAW up to wrapped stamps |
| TimingRuns.SafeUntilStampsWrap | test/ddr2_timing_checker.v:148-272 | if no command returns early, the monitor stops if and only if its stamps have wrapped onto each other |
| TimingRuns.SafeBeforeWrap | test/ddr2_timing_checker.v:148-272 | such a run of less than 2^32 cycles never breaks any rule |
| TimingExact.EarlyReturnBreaksTras | test/ddr2_timing_checker.v:229-240 | the converse: wherever a run sends the engine back to IDLE early, a self-refresh request in the next cycle breaks tRAS |
| TimingExact.InitRefreshRule | dut/ddr2_init_engine.v:305-340 | the second initial refresh breaks tRFC if and only if the refresh wait is below 100 |
| TimingTight.AbortedEntryIsTight | dut/ddr2_protocol_engine.v:811-815 | a low-power entry called off in its first state and a command for the same bank meet tRP without a cycle to spare: the monitor's timer reads exactly its minimum |
| HostTiming.PoliteHostIsSafe | dut/ddr2_controller.v:194-206 | a host that keeps fetching and enqueues only real commands never sees a violation in 2^32 cycles, whatever it does with low power, DLL and reset |
| HostTiming.RunStaysPolite | dut/ddr2_protocol_engine.v:520-541 | with such a host the return FIFO never holds more than one word, so no block read is ever dropped |
| ActSpacing.RunsOfActsSpaced | dut/ddr2_protocol_engine.v:479-492 | the j-th and (j+k)-th runs of ACTIVATE start at least 7k cycles apart, hence tRRD and tFAW |
| TurnaroundChecker.Block.Clock | test/ddr2_turnaround_checker.v:92-142 | the monitor on 32-bit signed registers, stops exactly when a rule is broken |
| TurnaroundHistory.VerdictIsHistory | test/ddr2_turnaround_checker.v:92-142 | for every history shorter than 2^31 cycles the monitor stops exactly on a WRITE within 8 cycles of a READ, a READ within 4 of a WRITE, a precharge within 8 of a WRITE or 4 of a READ to its bank |
| TurnaroundOnPins.CommandsKeepTheirDistance | test/ddr2_turnaround_checker.v:92-142 | hence none of these happens on the pins of any run that short, for any command stream |
| TurnaroundSafety.SafeUntilStampsWrap | test/ddr2_turnaround_checker.v:92-142 | for any command stream and read latency the turnaround monitor stops if and only if its stamps have wrapped |
| TurnaroundSafety.SafeBeforeWrap | test/ddr2_turnaround_checker.v:92-142 | hence never in less than 2^31 cycles |
| RefreshMonitor.Block.Clock | test/ddr2_refresh_monitor.v:62-116 | the monitor: counts while CKE is high, a refresh clears the count, stops exactly on a short or long interval |
| RefreshHistory.VerdictIsHistory | test/ddr2_refresh_monitor.v:77-113 | for every history: the monitor stops on a refresh exactly if the cycles with CKE high since the last one are above the limit or below a minimum that is switched on |
| RefreshHistory.FirstIsFree | test/ddr2_refresh_monitor.v:82-108 | the first refresh after READY is not judged |
| RefreshHistory.PowerVerdict | test/ddr2_power_monitor.v:31-42 | the power monitor stops exactly on a selected device that sees anything but NOP with CKE low |
| RefreshBound.RefreshComesInTime | dut/ddr2_protocol_engine.v:302-304 | on every run, low-power visits included, the monitor's count stays below its value at the last reload + (initial value - threshold) + longest busy stretch + refresh path, plus TXSR + 13 for each self-refresh entered while a refresh was due |
| RefreshBound.NeverTooLate | test/ddr2_refresh_monitor.v:77-113 | so no refresh is late as long as this bound is within the limit |
| RefreshBound.LateReloadLateRefresh | test/ddr2_refresh_monitor.v:100-106 | unless a low-power mode was left since the last reload, no refresh comes sooner than initial value - threshold + 12 cycles after it; so after a reload that came too late the next refresh is late, whatever the traffic |
| RefreshAfterAbort.AbortDecides | dut/ddr2_protocol_engine.v:811-815 | one self-refresh or power-down entry called off at count e, and no further entry: the next refresh is late if e + initial value - threshold + 12 reaches the limit, in time if e + the longest interval is within it |
| RefreshBound.DefaultInterval | test/ddr2_timing_config.vh:54-57 | 2589 cycles with the default parameters, which leaves room for 11 detours within the strict limit of 3900 |
| RefreshStarvation.RoundsCount | dut/ddr2_protocol_engine.v:811-815 | a host that alternates request and abort of self-refresh keeps the engine from refreshing however long it goes on |
| RefreshStarvation.AbortsStarveRefresh | test/ddr2_refresh_monitor.v:100-106 | after half as many rounds as the limit has cycles, whenever the next refresh comes, the monitor stops on it, for all parameters |
| RefreshStarvation.DetoursStarveRefresh | dut/ddr2_protocol_engine.v:430-435 | a host that asks for self-refresh in every IDLE cycle keeps the engine from refreshing, and each completed visit costs exactly TXSR + 13 counted cycles: the allowance in the bound is exact |
| RefreshStarvation.NoThresholdNoRefresh | dut/ddr2_protocol_engine.v:304 | with a threshold of zero no run ever refreshes |
| AutoSelfRefresh.NeverRequestedUnlessWindowFits | dut/ddr2_protocol_engine.v:395-412 | if the idle window does not fit between refresh and threshold, no run requests automatic self-refresh |
| AutoSelfRefresh.RequestedIfWindowFits | dut/ddr2_protocol_engine.v:395-433 | if it fits, on every run from reset on which the host only starts the initialisation, the request rises in exactly one known cycle and the engine enters self-refresh in the next |
| QuietWindow.RequestNeedsQuiet | dut/ddr2_protocol_engine.v:395-412 | on every run, a request means that the whole idle window and one cycle more was quiet without a break: IDLE, no refresh due, no command waiting |
| AutoSelfRefresh.DefaultWindowDoesNotFit | dut/ddr2_protocol_engine.v:51-59 | the default window does not fit |
| Progress.StepRankFalls | dut/ddr2_protocol_engine.v:414-1055 | every edge brings an engine that is busy strictly closer to IDLE or to a low-power wait |
| Progress.RankBounded | dut/ddr2_protocol_engine.v:414-1055 | by at most 276 cycles for any command, lock time + 17 for a DLL change |
| Progress.SettlesWithinRank | dut/ddr2_protocol_engine.v:414-1055 | hence every run settles within the rank of its state, whatever the inputs |
| Progress.ReturnsToIdle | dut/ddr2_protocol_engine.v:861-978 | and is back in IDLE in bounded time while both low-power exits are requested |
| Service.ServedInTime | dut/ddr2_protocol_engine.v:430-463 | in a fair configuration, while a command waits and the host stays calm, the next one is latched within 396 cycles (default), from every reachable state |
| Service.RunCanServe | dut/ddr2_protocol_engine.v:753-795 | every run from reset reaches only states from which this holds |
| Service.UnfairNeverServes | dut/ddr2_protocol_engine.v:302-304 | in any other configuration, while nobody requests self-refresh, no command is latched after the first refresh |
| Service.CalledOffRequestServes | dut/ddr2_protocol_engine.v:811-815 | a self-refresh request called off lets a waiting command through all the same, if the threshold is within the initial value |
| CommandTrace.StepTraced | dut/ddr2_protocol_engine.v:497-751 | every edge extends the recording of the current command as specified for its state |
| CommandTrace.CommandsRunAsSpecified | dut/ddr2_protocol_engine.v:457-751 | on every run each command's pins, data requests and tagged pushes are exactly its specified trace with exact times: every beat of the ACTIVATE that opens its row (2 for scalars, 9 for blocks), READ or WRITE there five cycles after the last beat, nine pushes a, a, a+1 .. a+7 for a scalar read and none otherwise, sz+1 WRITEs at (col + 8j) mod 512 with the flag on the last |
| WriteData.WritesTakeTheirWords | dut/fifo.v:44-55 | if the words accepted always cover the commands accepted, words are taken in turn, the current command takes only words of its own share, and back in IDLE each command executed has had exactly its own 8 (SCW) or 8(sz+1) (BLW) words |
| WriteData.CoveredNeverStarves | dut/fifo.v:44-55 | with such a host no request ever finds the data FIFO empty |
| WriteData.StarvedFallsShort | dut/fifo.v:44-55 | conversely, once a request found it empty the commands executed have fewer words than they are due, and the host was not always ahead |
| WriteData.EdgeAsks | dut/ddr2_protocol_engine.v:618-664 | a command asks for one word on each taking edge and ends with exactly its due |
| LowPower.RunIsSafe | test/ddr2_power_monitor.v:31-42 | on every run CKE low means NOP or deselect, and the two modes exclude each other inside and outside the engine |
| LowPower.CommandsAwaitExit | dut/ddr2_protocol_engine.v:861-978 | on every run no command comes before TXSR + 2 or TXP + 3 cycles of CKE high, unless CKE was last low for the pulse of an aborted entry; a finished period of self-refresh has lasted one cycle exactly if it was such a pulse |
| LowPower.PulseWakesTooSoon | dut/ddr2_protocol_engine.v:849-852 | every such pulse on a run, followed by a self-refresh request in the next cycle, is followed by a command too soon |
| LowPower.AssertionsFire | dut/ddr2_protocol_engine.v:1067-1085 | the power-down assertion never fires; the self-refresh assertion fires exactly in the second cycle of SREF_ENTER, which every entry passes |
| LowPower.AbortPulsesCke | dut/ddr2_protocol_engine.v:849-852 | aborting in that cycle drops CKE for exactly one cycle |
| LowPower.IdleStartsSelfRefresh | dut/ddr2_protocol_engine.v:430-435 | and the next PRECHARGE may follow two cycles after IDLE, without any exit wait |
| DllInterlock.StepWedges | dut/ddr2_protocol_engine.v:319-357 | the interlock is left without a sequence behind it if and only if it was before or reset hits a DLL sequence |
| DllInterlock.WedgedForever | dut/ddr2_protocol_engine.v:436-452 | once so, no run accepts a DLL request again, resets included |
| Fifo.RunConserves | dut/fifo.v:38-65 | for any puts and gets words come out once, in order, never more than the depth are held, and the output register is the last word given out |
| Fifo.Ring.Clock | dut/fifo.v:27-65 | the ring of any depth 2^k refines the bounded queue, simultaneous put and get when empty or full included |
| Fifo.Ring.PointersAgree | dut/fifo.v:28-30 | write pointer = read pointer + count, modulo the depth |
| ControllerBlock.Block.Clock | dut/ddr2_controller.v:165-346 | FIFOs, engines and read path clocked together are one step of the controller |
| CommandOrder.ExactlyOnceInOrder | dut/ddr2_controller.v:194-206 | latched commands ++ the one in flight ++ queued ones = commands accepted under NOTFULL since reset, at all times |
| SimpleMem.Block.Clock | test/ddr2_simple_mem.v:210-337 | the memory's clocked blocks with the word array and the write loop are one step of the specification |
| SimpleMem.FillSlots | test/ddr2_simple_mem.v:320-324 | a committed burst changes exactly eight consecutive cells, modulo the depth |
| DeviceBursts.BurstShowsWords | test/ddr2_simple_mem.v:250-293 | from a READ on, for every latency of at least two: words of consecutive columns one a cycle, the first one the latency after the READ, seven in all |
| DeviceBursts.ShortLatencyNeverDrives | test/ddr2_simple_mem.v:267-276 | with a shorter latency the device never drives a word and never ends the burst |
| DeviceBursts.BurstStoresWord | test/ddr2_simple_mem.v:218-333 | from a WRITE on: after twenty cycles eight consecutive words take the last word driven in the seven cycles before, zero if nobody drove any; until then nothing changes |
| ScalarBurst.EdgeKeepsRead | test/ddr2_simple_mem.v:250-293 | the device's read burst runs in lockstep with the engine's count for every read latency; its first word is on the bus in the second cycle of SCREND |
| ScalarBurst.EdgeKeepsWrite | test/ddr2_simple_mem.v:307-333 | the device's write burst starts to listen when the engine drives and commits in the last cycle of the data phase |
| ScalarTraffic.PulsesBegin | dut/ddr2_controller.v:334-346 | on every disciplined run a VALIDOUT pulse begins in the third cycle of a read's burst and in no other; RADDR and DOUT then carry the read's address and the content of its cell after everything finished before it |
| ScalarTraffic.RefinesMemory | dut/ddr2_controller.v:309-346 | scalar reads and writes refine an abstract memory on every disciplined run, for every read latency and depth: cells and first VALIDOUT beats are exactly those of the finished operations in order, and DQ is never driven twice |
| ScalarTraffic.DrainedMeansDone | dut/ddr2_controller.v:309-346 | with nothing left to do, everything accepted is stored and answered |
| ScalarTraffic.StoreIsRemembered | test/ddr2_simple_mem.v:72-83 | read after write: each of a store's eight cells holds its word until a later store covers it |
| ScalarAliasing.AddressesShareCell | test/ddr2_simple_mem.v:72-83 | with at least 4096 words, two addresses share a cell exactly if they agree in bits 16:12, 6:5, 4:3 and 2:0 |
| ScalarAliasing.StoreReaches | test/ddr2_simple_mem.v:307-333 | a store changes the cell another address reads exactly if that word is at most seven further on, around the depth; otherwise it leaves the answer alone |
| ScalarAliasing.AlignedCovers | test/ddr2_simple_mem.v:320-324 | a store at a multiple of eight covers exactly the addresses that agree with it in bits 16:12, 6:5 and 4:3 |
| ScalarAliasing.LoadAnswersLastStore | dut/ddr2_controller.v:309-346 | a load answers with the word of the last store whose burst covers its address, whatever was stored elsewhere since |
| InitEngine.Block.Clock | dut/ddr2_init_engine.v:156-453 | the sequencer's clocked block is one step of the specification |
| InitSequence.InitialisesOnSchedule | dut/ddr2_init_engine.v:156-492 | for all parameters and optional windows the commands are PREALL, EMRS2, EMRS3, EMRS1, MRS, REF, REF, MRS, EMRS1, PREALL at their exact times, CKE is up exactly from two cycles after the power-up wait on, and READY exactly when the latency has passed |
| InitSequence.PlainLatency | dut/ddr2_init_engine.v:206-226 | the latency in closed form without optional windows; it does not depend on the tRP parameter |
| InitPads.PadsOnSchedule | dut/ddr2_phy.v:64-80 | on every run from reset, in each cycle until READY: the pads carry the command due in it with its bank and address, or none, and CKE is up exactly from two cycles after the power-up wait on; then they belong to the protocol engine |
| Ecc.SyndromeOfError | dut/ecc_secded.v:93-104 | syndrome and parity depend on the error pattern alone, for every word |
| Ecc.DecodingOfError | dut/ecc_secded.v:104-139 | for every word and pattern: the verdict, the word handed out, and that it is right if and only if the inverted data bits are those the decoder flips |
| Ecc.DecoderInverts | dut/ecc_secded.v:119-139 | for every word, pattern and bit k: the decoder changes bit k of what it receives exactly if the parity fails and the syndrome is k + 1 |
| Ecc.RoundTrip | dut/ecc_secded.v:43-139 | decoding an undisturbed word returns it without a flag |
| Ecc.SingleError | dut/ecc_secded.v:118-131 | every single error is flagged; only the overall parity bit leaves the data right |
| Ecc.SingleErrorHandsOut | dut/ecc_secded.v:118-131 | which bits come out wrong: check bit j below 7 inverts bit 2^j - 1, data bit 0 comes with bit 63, every other data bit stays as it arrived |
| Ecc.DoubleError | dut/ecc_secded.v:132-138 | every double error is reported and left alone, except the pair {data 0, check 6}, which is silent |
| Ecc.MaskSelects | dut/ecc_secded.v:45-63 | mask k selects the data bits whose index has bit k, the last mask all of them |

## Left out

- Block-read data return: the FSM does not implement it; the model has a block read's bus activity, duration and admission.
- DQ contents of block writes: the DQ pipeline lags the data FIFO and the memory stores one replicated word; counts, columns and words taken are proved.
- VALIDOUT beats after the first of a pulse: VALIDOUT lags DOUT by one entry, so no beat-by-beat match exists.
- ScalarTraffic.RefinesMemory: one store outstanding at a time with its word put together with its command, since a store requests eight words; reads may be queued without limit.
- Service.ServedInTime: only while the host neither requests low power nor withholds the exits; otherwise a command may wait as long as the host likes.
- Several ranks: the rank select is sampled live and not queued with its command.
- ODT, DM, DQS, the ring buffer, the toggling clock register of the PHY and the memory's debug outputs: no modelled decision depends on them.
- X and Z values, tri-states, DQS edges, `$display`, and the `SIM_DIRECT_READ` and `SIM_SHORT_INIT` variants (the power-up count is a parameter).
- `dut/ddr2_scrubber.v`, `dut/ddr2_server_controller.v`, `dut/ecc_core.v`, `dut/ddr2_cmd_crc_frontend.v`, `dut/ddr2_ras_registers.v`: wiring, pass-through or easy counters.
- Other geometries and ACT gap values: the address slices and the gap of 6 are constants here.
