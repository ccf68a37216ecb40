# TSL2561 light sensor driver, modelled in Dafny

The driver in `tsl2561.py` talks to a TSL2561 ambient light sensor over a
two-wire bus. Every public operation is a short, fixed sequence of bus
transfers: a command byte `0x80 | register` selects a register, then one or
more bytes are read or written. The setters read the timing or interrupt
register, keep some bits, set a field, and write the byte back. The channel
reader joins two little-endian 16-bit counts. The lux routine picks one
segment of a piecewise formula from the ratio of the two counts, then scales
it by gain and integration multipliers that it looks up from the timing
register.

The project has four modules:

- `Registers` (`registers.dfy`) holds the register map, the command byte,
  and every mask, shift and byte-splitting expression the driver uses. They
  are pure functions over bytes (`bv8`). The contracts say which bits
  survive and which field holds the argument.
- `LuxDecision` (`lux.dfy`) holds the lux branch choice, the zero cases and
  the gain and integration tables. The driver's ratio test compares the
  quotient `ch1/ch0` with 0.50, 0.61, 0.80 and 1.30. `RatioCase` models
  that test with exact reals. `LuxBranch` is the same test written as
  integer cross-multiplications. `BranchesAgree` proves that the two pick
  the same segment for every pair of counts.
- `I2c` (`bus.dfy`) models the device at the other end of the bus. It has
  sixteen registers, the register the last command byte selected, and a log
  of every transfer in order. A write of `[cmd, v]` selects `cmd & 0x0F` and
  stores `v` there. A read of `n` bytes returns `n` registers, starting at
  the selected one.
- `Driver` (`tsl2561.dfy`) holds the class `Tsl2561`, one method per driver
  method. Each method keeps its intermediate values in fields, as the driver
  does. Each method's `ensures` gives the exact transfers appended to the
  log, the new register contents, and the field values, in terms of the
  `Registers` and `LuxDecision` functions.

In three places a reader might expect something other than what the code
does. The model follows the code:

- The docstring of `set_gain` (tsl2561.py:63-64) calls the value 0x01
  "high (x16) gain", and `set_gain` stores that choice in bit 4 of the
  timing register, so it is easy to read the lux scaling as "16 when the
  bit is set". The lux routine's table `(16, 1)` is indexed by bit 4
  (tsl2561.py:34, tsl2561.py:202), so a clear bit 4 scales by 16 and a set
  bit 4 scales by 1. Low-gain counts are brought up to the high-gain scale.
  `GainMult` and `GainRoundTrip` state the code's behaviour.
- `set_gain` keeps only bits 0, 1 and 3 (mask `0b00001011`). A gain change
  therefore also clears bits 2 and 5-7 of the timing register; it does not
  leave every other bit as it was. `GainByte` states the code's behaviour.
- The lux value is not clamped to be non-negative anywhere in the code. The
  value itself is not modelled (see "## Left out").

## Model

| member | source | states |
|---|---|---|
| Registers.Cmd | tsl2561.py:43 | the command byte has bit 7 set and carries the register in its low seven bits; for a register below 0x10 it lies in 0x80..0x8F with the register as its low nibble |
| Registers.HardCodedCommands | tsl2561.py:53-58 | the literal command bytes the driver writes are the ones `Cmd` builds: 0x81 for timing (line 104), 0x8A for the id (line 173), 0xC0 for clear-interrupt (line 208), 0x80 for control (lines 53-58) |
| Registers.Rmw | tsl2561.py:70-72 | the byte `cur & keep` with `bits` OR-ed in has every bit of `bits` set, has every bit outside `keep` and `bits` clear, and keeps the bits of `keep` when `bits` does not overlap them |
| Registers.GainByte | tsl2561.py:67-74 | set_gain's byte keeps bits 0, 1 and 3, has bit 4 set exactly for "high", and has bits 2 and 5-7 clear |
| Registers.IntegrationByte | tsl2561.py:99-104 | set_integration_cycle's byte keeps bits 3 and 4, has the argument in bits 0-1, and has bits 2 and 5-7 clear |
| Registers.PersistByte | tsl2561.py:143-149 | interrupt_persist's byte keeps bits 4-5 (so the interrupt mode is unchanged), has the count in the low nibble, and has bits 6-7 clear |
| Registers.ModeByte | tsl2561.py:162-168 | interrupt_mode's byte keeps the low nibble (so the persistence count is unchanged), has the mode in bits 4-5, and has bits 6-7 clear |
| Registers.TimingSettersCommute | tsl2561.py:67-104 | set_gain and set_integration_cycle preserve each other's field, and applying them in either order writes the same byte |
| Registers.InterruptSettersCommute | tsl2561.py:143-168 | interrupt_persist and interrupt_mode preserve each other's field, and applying them in either order writes the same byte |
| Registers.ManualByte | tsl2561.py:84-90 | as written: a stop keeps bits 0-2 and 4 and clears the manual bit 3; a start always yields 0x00 |
| Registers.ManualByteIntended | tsl2561.py:80-88 | the byte the docstring describes: bits 0-2 and 4 kept, manual bit 3 set exactly for a start |
| Registers.ManualStartDiverges | tsl2561.py:86-88 | the as-written and intended bytes agree on a stop; on a start they always differ, the written byte never has bit 3 set, and it wipes any set gain or integration-select bit |
| Registers.Join16 | tsl2561.py:180-181 | `(msb << 8) + lsb` lies in 0..0xFFFF, with `lsb` as its remainder and `msb` as its quotient by 256 |
| Registers.Split16 | tsl2561.py:115-116 | the threshold's `(t & 0xFF, t >> 8)` pair joins back to `t` for every `t` in 0..0xFFFF |
| Registers.SplitJoin | tsl2561.py:127-128 | splitting a joined byte pair gives back the same two bytes, so `Split16` and `Join16` are inverse bijections |
| Registers.IdNibble | tsl2561.py:175 | the chip id is below 16 and is exactly the upper nibble of the id register |
| Registers.DecodeChannels | tsl2561.py:178-182 | both channel counts are below 0x10000, and each splits back into the register pair it came from (low byte first) |
| LuxDecision.Ratio | tsl2561.py:189 | the exact quotient `ch1/ch0` for `ch0 > 0`: non-negative, and times `ch0` it gives back `ch1` |
| LuxDecision.RatioCase | tsl2561.py:187-199 | the driver's ordered test of the exact quotient against 0.50, 0.61, 0.80 and 1.30, with the `0 < ratio` guard; the reference definition. No light exactly when `ch0 == 0`; a zero segment exactly when `ch0 == 0` or the quotient exceeds 1.30; the first segment only with infrared light |
| LuxDecision.LuxBranch | tsl2561.py:187-199 | the same test in integers, which `Driver.Tsl2561.Lux` uses to pick the segment. No light exactly when `ch0 == 0`; a zero segment exactly when `ch0 == 0` or `10*ch1 > 13*ch0`; the first segment only with infrared light. `BranchesAgree` proves it equals `RatioCase` for all counts |
| LuxDecision.RatioAtMost | tsl2561.py:190-196 | the quotient `ch1/ch0` is at most `p/q` exactly when `q*ch1 <= p*ch0`, for any positive `ch0` and `q` |
| LuxDecision.BranchesAgree | tsl2561.py:187-199 | the integer cross-multiplication test picks the same segment as the driver's quotient test, for all counts |
| LuxDecision.BranchMonotone | tsl2561.py:190-198 | with positive infrared counts, more infrared against the same full-spectrum count never moves the reading to an earlier segment |
| LuxDecision.GainMult | tsl2561.py:202 | the gain multiplier is 16 exactly when timing bit 4 is clear and 1 exactly when it is set |
| LuxDecision.IntegMult | tsl2561.py:203 | the integration lookup fails exactly when timing bits 0-1 are 3; selects 0, 1 and 2 give 1/0.034, 1/0.252 and 1, each at least 1 |
| LuxDecision.GainRoundTrip | tsl2561.py:67-74 | the gain set_gain writes is the multiplier lux reads back: "high" scales by 1, "low" by 16 |
| LuxDecision.IntegrationRoundTrip | tsl2561.py:99-104 | the select set_integration_cycle writes is the one lux reads back: 0, 1 and 2 scale by 1/0.034, 1/0.252 and 1, and 3 has no multiplier |
| LuxDecision.ScaleOf | tsl2561.py:201-205 | scaling a segment never gives the zero reading; it fails exactly on integration select 3, and otherwise carries the segment with the gain and integration multipliers of the timing byte |
| LuxDecision.LuxOf | tsl2561.py:185-205 | the reading is 0 exactly in the zero segments; the lookup fails exactly when a non-zero segment meets select 3; otherwise the reading carries the chosen segment and both multipliers |
| LuxDecision.LuxOfFollowsRatio | tsl2561.py:186-199 | the same decision, stated with the driver's quotient test: zero exactly in its zero cases, and otherwise the segment the quotient selects |
| LuxDecision.NoLightIsZero | tsl2561.py:187-188 | a zero full-spectrum count reads 0 whatever the infrared count and timing byte |
| LuxDecision.AboveRangeIsZero | tsl2561.py:196-199 | a ratio above 1.30 reads 0 whatever the timing byte |
| LuxDecision.NoInfraredIsSecondSegment | tsl2561.py:190-193 | with `ch0 > 0` and `ch1 == 0`, the ratio 0 fails `0 < ratio` and the 0.61 segment applies |
| LuxDecision.BoundariesInclusive | tsl2561.py:190-198 | each bound 0.50, 0.61, 0.80 and 1.30 belongs to the segment it closes, and the first count past 1.30 reads as out of range |
| Driver.Tsl2561.constructor | tsl2561.py:6-35 | a driver bound to the given bus, which must hold sixteen registers |
| Driver.Tsl2561.ReadReg | tsl2561.py:42-45 | writes the command byte alone, then reads `numbytes` bytes starting at the selected register; the registers are unchanged and the data is kept in `data` |
| Driver.Tsl2561.TurnOn | tsl2561.py:50-60 | a value equal to True writes exactly `[0x80, 0x03]`; one equal to False writes exactly `[0x80, 0x00]`; any other value causes no transfer and changes nothing |
| Driver.Tsl2561.SetGain | tsl2561.py:67-76 | "high"/"low" read the timing register once and write `GainByte` of it back to the same register; any other string causes no transfer and changes nothing |
| Driver.Tsl2561.ManualIntegration | tsl2561.py:84-90 | reads the timing register once and writes `ManualByte` of it back (as written, so a start writes 0x00) |
| Driver.Tsl2561.SetIntegrationCycle | tsl2561.py:99-106 | 0..3 read the timing register once and write `IntegrationByte` of it back through the literal command 0x81; any other value causes no transfer |
| Driver.Tsl2561.SetThresholdLow | tsl2561.py:112-122 | a value in 0..0xFFFF writes its low byte to 0x02 and then its high byte to 0x03, and those bytes join back to the value; any other value causes no transfer |
| Driver.Tsl2561.SetThresholdHigh | tsl2561.py:124-134 | as SetThresholdLow, on registers 0x04 and 0x05 |
| Driver.Tsl2561.InterruptPersist | tsl2561.py:143-151 | 0..15 read the interrupt register once and write `PersistByte` of it back; any other value causes no transfer |
| Driver.Tsl2561.InterruptMode | tsl2561.py:162-170 | 0..3 read the interrupt register once and write `ModeByte` of it back; any other value causes no transfer |
| Driver.Tsl2561.ChipId | tsl2561.py:172-175 | writes the literal 0x8A, reads one byte, and returns its upper nibble; the registers are unchanged |
| Driver.Tsl2561.ReadData | tsl2561.py:178-182 | one 4-byte read at 0x0C; returns and stores the two little-endian counts of registers 0x0C-0x0F |
| Driver.Tsl2561.Lux | tsl2561.py:185-205 | returns `LuxOf` of the counts in 0x0C-0x0F and the timing byte. A zero case makes no transfer after the data read and leaves the timing fields alone. Otherwise it reads the timing register exactly once and stores its byte and the gain multiplier; it stores the integration multiplier only when the lookup succeeds |
| Driver.Tsl2561.ScaleByTiming | tsl2561.py:201-205 | reads the timing register once; the result is `ScaleOf` the segment and that byte; the gain multiplier is stored before the integration lookup can fail |
| Driver.Tsl2561.ClearInterrupt | tsl2561.py:207-208 | writes exactly the single byte 0xC0, which selects register 0x00 on the bus, and changes no register |

The field decoders `Registers.GainIsHigh` (timing bit 4, tsl2561.py:202),
`Registers.ManualIsSet` (timing bit 3), `Registers.IntegrationSelect`
(`timing & 0x03`, tsl2561.py:203), `Registers.PersistCount` and
`Registers.InterruptModeOf` have no contracts of their own. They name a field
of a register byte and are used only in the contracts above.

## Left out

- Opening `/dev/i2c-1` and the `ioctl` that sets the slave address (tsl2561.py:12-13) are OS I/O. They are replaced by the `I2c.Bus` object, which stands for a device that answers at that address.
- The device behind the bus is a model of the register file only. Power states, conversion timing and the hardware's own use of the written bytes are not modelled. Reads wrap within the sixteen register addresses.
- The numeric lux value is left out: `ratio**1.4`, the decimal coefficients, and the final product (tsl2561.py:191-197, 205) are floating-point arithmetic. Instead, the model returns the segment chosen and the two multipliers that scale it. The fields `luxval` and `ratio` are therefore not kept.
- RatioCase: the quotient is an exact real rather than a binary float. For counts below 0x10000 the float comparisons with 0.50, 0.61, 0.80 and 1.30 land on the same side as the exact ones. This is a claim about float rounding; the model does not prove it.
- `IntegrationTimes` holds the exact reals 1/0.034 and 1/0.252 rather than their float values.
- Printed error messages are left out. A rejected argument is modelled as a call that makes no transfer and changes no state.
- Python's dynamic typing is modelled only through typed parameters. `turn_on` and `manual_integration` take an integer that stands for the argument's comparison with True (1) and False (0). `set_gain` takes a string. The other range-checked setters take an integer. For `set_threshold_low`, `set_threshold_high`, `interrupt_persist` and `interrupt_mode`, a non-integer argument causes no transfer: a float fails the `isinstance` test, and in `set_threshold_high`, which compares before it tests the type (tsl2561.py:125-126), a string raises TypeError at the comparison instead. The model cannot express such an argument.
- Driver.Tsl2561.SetIntegrationCycle: `set_integration_cycle` has no `isinstance` test (tsl2561.py:100). A float in 0..3 passes its range test, reads the timing register (line 101), and then raises TypeError at the `|` on line 103, so nothing is written. The model takes an integer and does not capture this read followed by an exception.
- Short reads and OS errors from `os.read` / `os.write` are transport failures and are not modelled; every read returns the bytes it asked for.
- The `__main__` polling loop (tsl2561.py:210-226) and the example script `Tsl2561_lux_example.py` are demo loops with sleeps and prints, and are not part of this model.
- Driver.Tsl2561.Lux: when the integration lookup fails, the driver raises an exception; the model returns `IntegrationIndexError` instead. The fields written before the failure (`timing_state`, `gainval`) keep the values the driver leaves behind.

## Findings

| source | as written | input that shows it | evidently intended | confidence | as-written member | corrected member |
|---|---|---|---|---|---|---|
| tsl2561.py:86-88 | `manual_integration(True)` masks with `0b00010111`, which clears bit 3, and then ANDs with `0x08`, so it always writes 0x00 | timing byte 0x02 (integration 402 ms) with mode True writes 0x00: the manual bit stays clear and the integration select drops to 13.7 ms | OR in `0x08`: keep bits 0-2 and 4 and set the manual bit 3, as the docstring at tsl2561.py:80-82 says a start should | high; not executed | Registers.ManualStartDiverges | Registers.ManualByteIntended |

The driver method `Driver.Tsl2561.ManualIntegration` follows the code as
written, so the driver model keeps the source's observable behaviour.
`Registers.ManualByteIntended` is the corrected byte, with its properties
proved.
