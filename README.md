# Voxel8 Marlin safety interlocks and peripheral drivers, in Dafny

This project models the printer-specific parts of the Voxel8 fork of the
Marlin firmware, and proves properties about them:

- the **cartridge interlock** (`Cartridge.cpp`): the per-slot
  PRESENT/ABSENT/REMOVED state machine driven by two presence pins, the
  250-call removal hysteresis, and the rate-limited removal handler that
  kills the machine once inside a safety-critical section and pauses the
  print otherwise;
- the **heated-bed presence check** (`HeatedBed.cpp`) and its rate-limited
  pause;
- the **electronic pressure regulator** (`Regulator.cpp`): the setpoint to
  DAC-code conversion, and the protection poll with its immediate
  above-pump rule, its timed tolerance-band rule, and the error handler
  that cancels the print;
- the **MCP4725 DAC** and **ADS1x15 ADC** drivers (`MCP4725.cpp`,
  `ADS1x15.cpp`): the exact bytes put on the I2C bus, and the config words
  and readings;
- the **G-code argument helpers** (`McodeUtilities.cpp`): `code_seen`,
  `code_value` and `gcode_get_destination`.

Everything the firmware does to the outside world is an `Effect` appended
to the log of a `Marlin.Machine`:

- motion stop, heater and stepper shutdown, and `kill`;
- pin writes, I2C transmissions and delays;
- lines sent to the host.

The globals `Running` and `SafetyCriticalSection` are the machine's two
flags. Pin readings, `millis()`, the two pressure readings, the bytes
returned by the I2C bus and `strtod` are parameters of the operations that
use them.

Code that updates state in place is modelled by classes:

- `CartridgeMonitor` holds the status array, the hysteresis counter and
  the handler's statics;
- `BedMonitor`, `PressureRegulator`, `Adc` and `CommandState` do the same
  for their modules.

Each method's postcondition ties its new state and its effects to a pure
function of the old state. The properties are proved about those
functions, mostly as lemmas about runs of successive calls.

Modules:

- `Marlin` (`marlin.dfy`): the shared types, the effect log and the
  counting of kills and host lines. Its lemmas `KillCountAppend` and
  `LineCountAppend` (counts add up over concatenated logs) support the
  proofs about runs, such as `Cartridge.KillAtMostOnce` and
  `HeatedBed.HeldRemovalPausesAtMostOnce`. They model no source line of
  their own.
- `RateLimit` (`rate_limit.dfy`): the `now > last + interval` rule that
  the cartridge and bed handlers share.
- `Cartridge`, `HeatedBed`, `Regulator`, `Mcp4725`, `Ads1x15` and
  `McodeUtilities`: one module per source file.

## Model

| member | source | states |
|---|---|---|
| Marlin.KillCount | Marlin/Cartridge.cpp:124-128 | the number of `kill` calls in a log; zero exactly when the log has no kill |
| Marlin.LineCount | Marlin/Cartridge.cpp:136 | the number of times a host line was sent; zero exactly when it was never sent |
| Marlin.Machine.constructor | Marlin/MCodeUtilities.h:22-27 | `Running` starts true, `SafetyCriticalSection` starts false, and nothing has been done yet |
| RateLimit.Acts | Marlin/HeatedBed.cpp:58 | definition of the `millis() > last + interval` test; used by `ActCount`, `Cartridge.RemovedErrorStep` and `HeatedBed.RemovedErrorEffects` |
| RateLimit.ActCount | Marlin/HeatedBed.cpp:58-66 | the number of calls in a run that act, with the stored time refreshed on every call; at most the number of calls, and zero exactly when no call finds itself more than one interval after the previous one |
| RateLimit.HeldFaultActsAtMostOnce | Marlin/Cartridge.cpp:114-140 | when calls come at most one interval apart, at most one of them acts: the first, if it is itself outside the interval |
| RateLimit.QuietWhilePolled | Marlin/HeatedBed.cpp:56-66 | calls that each come within one interval of the previous call never act |
| RateLimit.ActionsSpaced | Marlin/Cartridge.cpp:114-139 | with non-decreasing times, any two acting calls are more than one interval apart |
| Cartridge.PinShowsPresent | Marlin/Cartridge.cpp:152-165 | slot 0 is present iff its pin reads HIGH; slot 1 is present iff its pin reads LOW |
| Cartridge.AfterAbsentRead | Marlin/Cartridge.cpp:171-188 | an absent reading turns PRESENT into REMOVED and leaves ABSENT and REMOVED unchanged |
| Cartridge.AfterPresentRead | Marlin/Cartridge.cpp:194-208 | a present reading always gives PRESENT |
| Cartridge.Updated | Marlin/Cartridge.cpp:152-165 | after an update each slot is PRESENT iff its pin shows presence, and a slot becomes REMOVED only from PRESENT |
| Cartridge.AbsentEffects | Marlin/Cartridge.cpp:171-188 | definition of what an absent reading does besides the status: nothing unless the slot was PRESENT, then the removal message, with CART1_SIG1 driven LOW first for the silver slot; used by `SilverPinDrivenOnlyOnRemoval` and `CartridgeAbsentUpdate` |
| Cartridge.PresentEffects | Marlin/Cartridge.cpp:194-208 | definition of what a present reading does besides the status: the insertion message unless the slot was already PRESENT; used by `CartridgePresentUpdate` |
| Cartridge.UpdateEffects | Marlin/Cartridge.cpp:152-165 | definition of the effects of updating slot 0 then slot 1; used by `SilverPinDrivenOnlyOnRemoval` and `UpdateCartridgeStatus` |
| Cartridge.HysteresisStep | Marlin/Cartridge.cpp:64-95 | a trigger re-arms the counter to 249 after the decrement; the call reports removal iff it triggered or the counter was positive; otherwise the counter drops by one, stopping at 0 |
| Cartridge.HysteresisRun | Marlin/Cartridge.cpp:64-95 | one report per call of a run |
| Cartridge.Trigger | Marlin/Cartridge.cpp:74-83 | definition of the re-arming condition: some slot is REMOVED, or the FFF slot is not PRESENT |
| Cartridge.Quiet | tests/GTest/cartridge_test.cc:69-74 | a run of n non-triggering calls |
| Cartridge.QuietCountdown | Marlin/Cartridge.cpp:89-92 | from counter c, quiet call k reports removal iff k < c |
| Cartridge.ReportsForHysteresisWindow | Marlin/Cartridge.cpp:81-92 | after a triggering call, exactly the next 249 calls still report removal |
| Cartridge.HysteresisEdgeScenario | tests/GTest/cartridge_test.cc:64-77 | in the unit-test run, call 249 still reports removal and call 250 does not |
| Cartridge.TriggerAfterUpdate | Marlin/Cartridge.cpp:70-83 | the counter is re-armed iff the FFF pin reads LOW, or the silver pin reads HIGH on a slot that is not ABSENT |
| Cartridge.SilverPinDrivenOnlyOnRemoval | Marlin/Cartridge.cpp:178-183 | CART1_SIG1 is driven LOW exactly on the silver slot's PRESENT to REMOVED transition; there are no other pin writes |
| Cartridge.RemovedErrorStep | Marlin/Cartridge.cpp:114-140 | the call time is always stored; nothing happens within the interval; otherwise, inside a critical section, the error line is reported iff `Running` was set, nothing but that line and the kill is done, `Running` is cleared and `kill` is called once ever; outside one the call stops, disables heaters and steppers, echoes the message, and pauses |
| Cartridge.RemovedErrorRun | Marlin/Cartridge.cpp:114-140 | successive handler calls; after a run the stored time is the time of its last call |
| Cartridge.PausesFollowRateLimit | Marlin/Cartridge.cpp:114-139 | outside critical sections, the number of pauses in a run of handler calls equals the rate limit's `ActCount` over the call times |
| Cartridge.HeldRemovalPausesAtMostOnce | Marlin/Cartridge.cpp:107-140 | calls in quick succession (each within one interval of the previous one) outside critical sections pause the print at most once |
| Cartridge.KillAtMostOnce | Marlin/Cartridge.cpp:118-128 | over any run of handler calls, `kill` is called at most once, and never again after the latch is set |
| Cartridge.NoKillOutsideCriticalSection | Marlin/Cartridge.cpp:130-137 | a run with no call inside a critical section never kills and leaves `Running` and the latch untouched |
| Cartridge.CartridgeMonitor.constructor | Marlin/Cartridge.cpp:36-37 | both slots start ABSENT, with the counter and the handler statics at 0 |
| Cartridge.CartridgeMonitor.CartridgeAbsentUpdate | Marlin/Cartridge.cpp:171-188 | the slot's status follows `AfterAbsentRead`, and the removal message and pin write are logged |
| Cartridge.CartridgeMonitor.CartridgePresentUpdate | Marlin/Cartridge.cpp:194-208 | the slot becomes PRESENT; an insertion message is logged when it was not PRESENT |
| Cartridge.CartridgeMonitor.UpdateCartridgeStatus | Marlin/Cartridge.cpp:152-165 | the status array becomes `Updated` of the old one |
| Cartridge.CartridgeMonitor.CartridgesRemovedCheck | Marlin/Cartridge.cpp:215-222 | returns true iff some slot is REMOVED |
| Cartridge.CartridgeMonitor.CartridgesPresentCheck | Marlin/Cartridge.cpp:229-236 | returns true iff some slot is PRESENT |
| Cartridge.CartridgeMonitor.CartridgeRemoved | Marlin/Cartridge.cpp:64-95 | updates the statuses, then advances the counter by `HysteresisStep` on the trigger of the new statuses, and returns its report |
| Cartridge.CartridgeMonitor.CartridgeRemovedFff | Marlin/Cartridge.cpp:102-105 | updates the statuses and returns true iff the FFF pin reads LOW |
| Cartridge.CartridgeMonitor.CartridgeRemovedError | Marlin/Cartridge.cpp:114-140 | the handler statics, `Running` and the log follow `RemovedErrorStep` |
| Cartridge.StartupScenario | tests/GTest/cartridge_test.cc:19-34 | with pins LOW/HIGH neither slot is present; after HIGH/LOW both are |
| HeatedBed.RemovedErrorEffects | Marlin/HeatedBed.cpp:56-66 | the handler never kills; it acts iff more than 1000 ms have passed; an acted-on call stops, disables heaters and steppers, and ends with `// action:pause` |
| HeatedBed.PresentCheckSpec | Marlin/HeatedBed.cpp:37-50 | without the check the bed is always present and nothing happens; with it, present iff the pin reads HIGH, and an absent reading calls the handler once |
| HeatedBed.CheckRun | Marlin/HeatedBed.cpp:37-66 | successive presence checks never kill, and do nothing at all when the check is compiled out |
| HeatedBed.HeldRemovalPausesAtMostOnce | Marlin/HeatedBed.cpp:56-66 | a bed held absent and checked at least once a second pauses the print at most once, and never when the check is compiled out |
| HeatedBed.HeldRun | Marlin/HeatedBed.cpp:37-66 | the pauses in a held-absent run are the calls that pass the rate limit |
| HeatedBed.BedMonitor.constructor | Marlin/HeatedBed.cpp:57 | the handler's stored time starts at 0 |
| HeatedBed.BedMonitor.HeatedBedRemovedError | Marlin/HeatedBed.cpp:56-66 | the stored time becomes `now`, and the log grows by `RemovedErrorEffects` |
| HeatedBed.BedMonitor.PresentCheck | Marlin/HeatedBed.cpp:37-50 | answer, stored time and log follow `PresentCheckSpec` |
| Regulator.Uint16Cast | Marlin/Regulator.cpp:52-53 | the `(uint16_t)` cast: below 65536 it truncates to the integer part, and the result is always a 16-bit value |
| Regulator.Counts | Marlin/Regulator.h:9 | definition of the BITS_PER_PSI scaling, 33.5 DAC counts per psi; used by `DacCode` |
| Regulator.DacCode | Marlin/Regulator.cpp:40-64 | code 0 at or below REG_OFFSET + REG_HYSTERESIS and when the target equals the reading; otherwise the truncated 33.5 counts per psi of the target shifted by plus or minus the hysteresis |
| Regulator.DacCodeMonotone | Marlin/Regulator.cpp:46-60 | for a fixed reading, a higher target never gives a lower code, as long as neither target equals the reading and the codes fit in 16 bits |
| Regulator.DacCodeZeroAtReading | Marlin/Regulator.cpp:56-61 | a target just below the reading gets code 284, while the reading itself gets 0 |
| Regulator.SetOutput | Marlin/Regulator.cpp:40-64 | a setpoint always activates the regulator and stores the target, and sends exactly one DAC write of `DacCode` |
| Regulator.FaultMessage | Marlin/Regulator.cpp:132-168 | definition of the message each fault passes to the handler; used by `FaultLine` |
| Regulator.FaultLine | Marlin/Regulator.cpp:98-104 | definition of the `// action:message ` line naming a fault; used by `FaultLinesDistinct`, `HandlerNamesOneFault` and `ErrorHandler` |
| Regulator.FaultLinesDistinct | Marlin/Regulator.cpp:98-104 | the four fault messages are pairwise different |
| Regulator.ErrorHandler | Marlin/Regulator.cpp:93-108 | the target becomes 0 and the regulator inactive; six effects, starting with the motion stop and ending with `// action:cancel` |
| Regulator.HandlerStopsAndCancels | Marlin/Regulator.cpp:93-108 | a fault never kills and cancels exactly once; it stops motion, disables heaters and steppers, names the fault, and writes DAC code 0 when offset + hysteresis is not negative |
| Regulator.HandlerNamesOneFault | Marlin/Regulator.cpp:98-104 | the handler names exactly one fault: the given one, or REMOVED at the not-present reading |
| Regulator.BandWidth | Marlin/Regulator.cpp:137-147 | definition: the low band up to and including the crossover pressure, the high band above it |
| Regulator.Under | Marlin/Regulator.cpp:137-147 | definition: the reading is at or below the target minus the band width |
| Regulator.Over | Marlin/Regulator.cpp:137-147 | definition: the reading is at or above the target plus the band width |
| Regulator.OutOfBand | Marlin/Regulator.cpp:149 | definition: under or over the band |
| Regulator.AbovePumpCondition | Marlin/Regulator.cpp:129-131 | definition: the reading is at or above the pump reading, the pump reading is at least REGULATOR_LOW_P, and the reading is at least the not-present level |
| Regulator.Classify | Marlin/Regulator.cpp:163-169 | a band fault is REMOVED iff the reading is at or above the not-present level; otherwise RUNAWAY iff over the band, LEAK iff not |
| Regulator.PumpRule | Marlin/Regulator.cpp:129-133 | the above-pump rule calls the handler exactly when all three of its conditions hold, and leaves the timer alone |
| Regulator.BandRule | Marlin/Regulator.cpp:137-182 | in band, the timer restarts; out of band within the protection time, nothing happens; out of band after it, both pressures are reported, the fault is handled, and the timer restarts |
| Regulator.Protection | Marlin/Regulator.cpp:117-186 | inactive: only a timer restart; active and in band below the pump: only a timer restart; a pressure report only out of band after the protection time; any effect leaves the regulator inactive with target 0 |
| Regulator.ProtectionComposes | Marlin/Regulator.cpp:123-182 | an active protection call is the timer initialisation, then the pump rule, then the band rule |
| Regulator.AbovePumpShownAsRemoved | Marlin/Regulator.cpp:98-133 | whenever the above-pump rule fires, the host is told REMOVED, and the above-pump message is never sent |
| Regulator.UpdateStep | Marlin/Regulator.cpp:70-74 | an update never changes the protections switch; it has an effect only with protections on and the regulator active, and any effect leaves the regulator inactive at 0 psi |
| Regulator.UpdateGating | Marlin/Regulator.cpp:70-74 | with protections off an update does nothing, not even a timer restart; with the regulator inactive it only restarts the timer |
| Regulator.UpdateRun | Marlin/Regulator.cpp:70-74 | a run of updates never changes the protections switch |
| Regulator.InactiveRunQuiet | Marlin/Regulator.cpp:183-185 | once inactive, no update has any effect or reactivates the regulator, until the next setpoint |
| Regulator.InBandRunQuiet | Marlin/Regulator.cpp:178-182 | a reading kept inside the band and not above the pump never faults, however long it lasts |
| Regulator.DeviationWindowQuiet | Marlin/Regulator.cpp:149-152 | polls within the protection time of a timer restart never fault, whatever the readings, unless the pump rule fires |
| Regulator.HeldDeviationStep | Marlin/Regulator.cpp:149-177 | one poll of a held deviation: nothing until the protection time has passed, then one fault that cancels once |
| Regulator.HeldDeviationFaultsOnce | Marlin/Regulator.cpp:149-185 | a deviation held out of band cancels the print exactly once if some poll comes after the protection time, and never otherwise |
| Regulator.HeldRunawayScenario | Marlin/Regulator.cpp:152-166 | a 50 psi target read 1 psi above its band, below the not-present level, by a poll after the protection time: the print is cancelled once, a runaway is named, and the regulator is left off at 0 psi |
| Regulator.AbovePumpAndBandFaultInOnePoll | Marlin/Regulator.cpp:129-169 | the pump rule does not end the call: one poll can run the handler twice and cancel twice |
| Regulator.PressureRegulator.constructor | Marlin/Regulator.cpp:20-22 | target 0, inactive, protections on, timer 0 |
| Regulator.PressureRegulator.SetOutputPressure | Marlin/Regulator.cpp:40-64 | state and DAC write follow `SetOutput` |
| Regulator.PressureRegulator.SetPressureProtections | Marlin/Regulator.cpp:80-82 | sets the switch and nothing else |
| Regulator.PressureRegulator.RegulatorErrorHandler | Marlin/Regulator.cpp:93-108 | state and effects follow `ErrorHandler` |
| Regulator.PressureRegulator.AbovePumpCheck | Marlin/Regulator.cpp:129-133 | state and effects follow `PumpRule` |
| Regulator.PressureRegulator.BandCheck | Marlin/Regulator.cpp:137-182 | state and effects follow `BandRule` |
| Regulator.PressureRegulator.PressureProtection | Marlin/Regulator.cpp:117-186 | state and effects follow `Protection` |
| Regulator.PressureRegulator.Update | Marlin/Regulator.cpp:70-74 | protection runs on the stored target only when protections are on |
| Mcp4725.DataBytes | Marlin/MCP4725.cpp:15-16 | the low nibble of the second byte is 0, and the two bytes carry the low 12 bits of the value |
| Mcp4725.DecodeData | Marlin/MCP4725.cpp:15-16 | the value the DAC latches from the two data bytes is below 4096 |
| Mcp4725.WritePacket | Marlin/MCP4725.cpp:11-23 | `DAC_write` sends three bytes: 0x40, then the data bytes; the low nibble of the last byte is 0 |
| Mcp4725.WriteEepromPacket | Marlin/MCP4725.cpp:28-42 | `DAC_write_EEPROM` sends 0x60 followed by the same data bytes as `DAC_write` |
| Mcp4725.DacWrite | Marlin/MCP4725.cpp:11-23 | one three-byte transmission to the given address, starting with 0x40 |
| Mcp4725.DacWriteEeprom | Marlin/MCP4725.cpp:28-42 | one three-byte transmission to the given address, starting with 0x60 |
| Mcp4725.DacRead | Marlin/MCP4725.cpp:47-54 | `DAC_read` puts nothing on the bus |
| Mcp4725.TwelveBitRoundTrip | Marlin/MCP4725.cpp:15-16 | a value below 4096 is recovered exactly from the two data bytes |
| Mcp4725.UpperBitsLost | Marlin/MCP4725.cpp:15 | for any 16-bit value, the recovered value is the value mod 4096 |
| Ads1x15.BaseConfig | Marlin/ADS1x15.cpp:62-66 | definition of the config flags set before the channel: single-shot mode, data rate, comparator settings and PGA gain; used by `ConfigWord` |
| Ads1x15.ConfigWord | Marlin/ADS1x15.cpp:62-87 | definition of the full config word: the base flags, the MUX bits, and OS; used by `SingleEndedConfig`, `DifferentialConfig` and `MuxOfConfig` |
| Ads1x15.ConversionTraffic | Marlin/ADS1x15.cpp:89-95 | definition of a conversion's bus traffic: the config write, the conversion delay, then the two-byte read; used by `Adc.ReadSingleEnded` and `Adc.ReadDifferential` |
| Ads1x15.SingleEndedConfig | Marlin/ADS1x15.cpp:19-87 | a config word exists iff the channel is at most 3, and it carries that channel's MUX bits |
| Ads1x15.DiffIndex | Marlin/ADS1x15.cpp:152-166 | only the pairs (0,1), (0,3), (1,3) and (2,3) are accepted |
| Ads1x15.DifferentialConfig | Marlin/ADS1x15.cpp:145-166 | a config word exists iff the pair is accepted |
| Ads1x15.RegWriteBytes | Marlin/ADS1x15.cpp:188-194 | `regWrite` sends the register, then the high and low bytes, from which `(hi << 8) \| lo` gives back the value |
| Ads1x15.ShiftRight4Signed | Marlin/ADS1x15.cpp:209 | `>> 4` on a 16-bit AVR `int`: the low 12 bits are the top 12 bits of the input, and the top four bits copy its sign bit |
| Ads1x15.RegReadValue | Marlin/ADS1x15.cpp:200-213 | ADS1115: the bit pattern of `(hi << 8) \| lo`. ADS1015: the low 12 bits are the conversion code `hi:lo >> 4`, sign-extended; below 2048 when `hi < 0x80`, and at least 0xF800 otherwise |
| Ads1x15.Ads1015SignedReadings | Marlin/ADS1x15.cpp:209 | read as a signed `int`, the ADS1015 result is the 12-bit two's-complement code: 0x7FF0 gives 2047, 0x8000 gives -2048, 0xFFF0 gives -1 and 0x0010 gives 1 |
| Ads1x15.Ads1015WellFormed | Marlin/ADS1015.h:31-75 | the ADS1015 register map has one MUX value per channel and pair, each inside the MUX field, and the other config bits outside it |
| Ads1x15.Ads1015SingleEndedWord | Marlin/ADS1x15.cpp:62-87 | in the ADS1015 build, channel c gets `0x8000 \| (0x4000 + 0x1000·c) \| 0x0100 \| 0x0080 \| 0x0003` |
| Ads1x15.MuxOfConfig | Marlin/ADS1x15.cpp:62-87 | the MUX field of a config word is the MUX value put into it |
| Ads1x15.SingleEndedWordsDistinct | Marlin/ADS1x15.cpp:69-84 | different channels get different config words |
| Ads1x15.DifferentialWordsDistinct | Marlin/ADS1x15.cpp:152-163 | different accepted pairs get different config words |
| Ads1x15.SingleEndedNotDifferential | Marlin/ADS1x15.cpp:69-163 | no single-ended config word equals a differential one |
| Ads1x15.RegWrite | Marlin/ADS1x15.cpp:188-194 | logs the one transmission of `RegWriteBytes` |
| Ads1x15.RegRead | Marlin/ADS1x15.cpp:200-213 | logs the register select and the two-byte request, and returns `RegReadValue`, sign-extended in the ADS1015 build |
| Ads1x15.Adc.ReadSingleEnded | Marlin/ADS1x15.cpp:19-100 | channel above 3: returns 0, with no traffic and `ADC_val` unchanged; otherwise it writes the config word, waits, reads, and stores in `ADC_val` the same value it returns |
| Ads1x15.Adc.ReadDifferential | Marlin/ADS1x15.cpp:106-182 | a pair that is not accepted returns 0, with no traffic and `ADC_val` unchanged; otherwise it writes the config word, waits, reads, and stores in `ADC_val` the same value it returns |
| Ads1x15.Adc.constructor | Marlin/ADS1x15.cpp:13 | `ADC_val` starts at 0 |
| McodeUtilities.CEnd | Marlin/McodeUtilities.cpp:33 | the position of the terminating NUL: no NUL before it, and a NUL there unless it is the end of the buffer |
| McodeUtilities.CString | Marlin/McodeUtilities.cpp:42-46 | the C string at a position: a NUL-free slice of the buffer that ends at a NUL or at the end of the buffer |
| McodeUtilities.StrChr | Marlin/McodeUtilities.cpp:33-39 | `strchr` finds the first occurrence within the C string, or reports that there is none before the terminator |
| McodeUtilities.StrChrFindsOccurrence | Marlin/McodeUtilities.cpp:32-35 | a letter other than NUL is found iff it occurs in the command string |
| McodeUtilities.ParsedText | Marlin/McodeUtilities.cpp:37-47 | definition of the text `code_value` hands to `strtod`: the C string after the letter, with a NUL written over the first 'E' from the letter on. `ParsedTextStopsAtE` and `ParsedTextAfterE` state what it is |
| McodeUtilities.AxisTarget | Marlin/McodeUtilities.cpp:20-25 | definition of one axis's destination: the parsed value, plus the current position when moving relatively, or the current position when the letter is absent. It is the loop invariant of `GetDestination` |
| McodeUtilities.CutEnds | Marlin/McodeUtilities.cpp:41 | writing a NUL into a C string ends it there |
| McodeUtilities.ParsedTextStopsAtE | Marlin/McodeUtilities.cpp:39-46 | for a letter other than 'E', the parsed text is exactly the characters strictly between the letter and the next 'E' or the end of the string |
| McodeUtilities.ParsedTextAfterE | Marlin/McodeUtilities.cpp:39-42 | for the letter 'E', the cut falls on the letter itself, so the text runs to the end of the string |
| McodeUtilities.CEndOfSuffix | Marlin/McodeUtilities.cpp:42 | the end of a C string depends only on the characters from its start on |
| McodeUtilities.CommandState.constructor | Marlin/MCodeUtilities.h:34-74 | the command state holds the given buffer, positions, feed rate and relative-mode flags, and `seen_pointer` starts NULL |
| McodeUtilities.CommandState.CodeSeen | Marlin/McodeUtilities.cpp:32-35 | `seen_pointer` becomes the first occurrence of the letter, and the result is true iff there is one |
| McodeUtilities.CommandState.CodeValue | Marlin/McodeUtilities.cpp:37-47 | the buffer is the same on return, and the result is `strtod` of the text after the letter, cut at the next 'E' |
| McodeUtilities.CommandState.GetDestination | Marlin/McodeUtilities.cpp:19-30 | a named axis gets its value, plus the current position in relative mode; any other axis gets its current position; the feed rate changes only to a positive F value; `seen_pointer` is left at the F lookup; the buffer and `current_position` are unchanged |

## Left out

- I/O is recorded rather than performed. Host lines are their text, and
  the `MSG_T_*` messages are named by their macro names, since
  `language.h` is not part of this model. `SERIAL_EOL` and the line
  layout of the pressure report are not modelled.
- Time is an unbounded `nat`. The 32-bit wrap-around of `millis()` and
  of `last + interval` is not modelled, and nothing here claims
  rollover safety.
- One clock reading per call. The source reads `millis()` a second time
  for the time it stores: `Cartridge.cpp` lines 116 and 139,
  `HeatedBed.cpp` lines 58 and 66, and `Regulator.cpp` lines 123 and 152
  against 176, 181 and 184. The model compares and stores the same `now`.
  A later stored time only suppresses further actions, so the
  at-most-once results still hold. The time that passes between the two
  reads, for example while the pause or kill output is sent, is not
  modelled.
- Regulator: each poll takes one pressure sample. The source calls
  `pressureRegulator()` again inside `Regulator__SetOutputPressure` and
  the above-pump test; the model assumes those calls return the same
  value.
- Regulator.Uint16Cast: it takes the source's cast as truncation followed
  by reduction mod 65536. In C, a float cast outside the `uint16_t` range
  is undefined, and it only happens for targets above about 1956 psi.
- Regulator: `prev_target_pressure` is declared but never read, so it is
  not modelled.
- The configuration values REG_OFFSET, REG_HYSTERESIS, the band widths,
  the crossover, the protection time, the not-present and low-pump levels,
  and CARTRIDGE_REMOVED_ERR_INTERVAL are parameters, because their
  definitions are not part of this model. The model assumes only that
  REG_HYSTERESIS is non-negative.
- Ads1x15: `ADS1115.h` is not part of this model. The ADS1115 build's
  register map is a parameter, which the distinctness lemmas assume to be
  well-formed, while the ADS1015 map is concrete. The two bytes returned by the bus are parameters, and the
  first is taken as the high byte. The source's two `Wire.read()` calls
  are unsequenced in C, and a failed read (-1) is not modelled.
- Ads1x15.RegReadValue: on the ATmega2560, the only target this firmware
  builds for, `int` is 16 bits. Shifting a high byte of 0x80 or more into
  its sign bit is formally undefined in C. The model takes avr-gcc's
  two's-complement result, and its arithmetic `>> 4` in the ADS1015
  build.
- McodeUtilities: `strtod` is an uninterpreted parameter, so what it
  parses (including exponent notation across a cut) is not modelled.
  `code_value` is only specified after a successful `code_seen`, as the
  source requires.
- McodeUtilities.CommandState.CodeSeen: the function `strchr` is modelled
  as a pure function rather than a loop, because it is a library call.
- Regulator.PressureRegulator.PressureProtection: the method delegates to
  `AbovePumpCheck` and `BandCheck`, one per rule, so that each can be
  checked on its own.
- The cartridge "presence check enable" switch and the
  `Cartridge__Present`/`Cartridge__Update` entry points used by the unit
  tests have no implementation in `Cartridge.cpp`, so they are not
  modelled. `HeatedBed__SetPresentCheck` is declared but never defined.
  The bed check's compile-time option is a constructor parameter.
- Cartridge.PausesFollowRateLimit and Cartridge.HeldRemovalPausesAtMostOnce
  count pauses by the `// action:pause` line, so they assume the
  handler's message is not that line itself.
- Behaviours of the code that the model follows as written:
  - with protections off, the regulator timer is not restarted;
  - REMOVED is reachable only from PRESENT, so a cartridge missing at
    start-up stays ABSENT;
  - `kill` happens only inside a safety-critical section;
  - the above-pump fault does not end the protection call.
