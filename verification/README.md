# S2MU004 fuel gauge, multi-charger arbiter, dwc3 debugfs parsers and pagevec in Dafny

This project models four pieces of an Android (Linux 4.x) kernel tree and proves properties of them.

- **The S2MU004 fuel-gauge driver** (`drivers/battery_v2/s2mu004_fuelgauge.c`). It covers:
  - the two lookups over the 22-entry SOC/OCV calibration table;
  - the signed 12-bit voltage-offset codec of the two "surge" routines;
  - the register-file effects of `WA_0_issue_at_init`, `WA_0_issue_at_init1`, `s2mu004_restart_gauging` and `s2mu004_reset_fg`;
  - `s2mu004_get_rawsoc`: reset detection and reload, the double-read stability loop, the SOC decode, SOC continuity across a reset, the voltage-mode hysteresis, the power-off correction and the return value;
  - the measurement decoders (temperature, current, average current, voltage, averaged voltage);
  - the alert-threshold packing;
  - the capacity arithmetic (scaling, the `capacity_max` clamp, atomic smoothing, the dynamic rescale);
  - the CAPACITY branch of `s2mu004_fg_get_property`.
- **The multi-charger arbiter** (`drivers/battery_v2/sec_multi_charger.c`). It covers:
  - the WCIN/CHGIN current split;
  - the sub-charger enable predicate, with its CURRENT_NOW hysteresis;
  - the target computation and the order in which the input limits are pushed (decreases before increases);
  - the fast-charging current setter;
  - `check_input_current` and `check_enable`;
  - the ONLINE, CURRENT_MAX and CURRENT_NOW cases of `set_property`.
- **The dwc3 debugfs input handlers** (`drivers/usb/dwc3/debugfs.c`):
  - the `mode`, `testmode` and `link_state` parsers, which copy the write into a zero-filled buffer and match it against names with `strncmp`;
  - the `ep_num` handler;
  - the `allow_dbg_print` endpoint filter.
- **`struct pagevec`** and its init/reinit/count/space/add/release inlines (`include/linux/pagevec.h`).

## How the model is organised

Values are modelled in these terms:

- Registers are bytes (`bv8`) in a 256-entry register file (`Registers.Regs`).
- Integers are unbounded. C's truncating `/` is `CArith.Div`. An arithmetic `>>` of a negative value is Dafny's floor division. 16- and 32-bit wrap-around is written out where it matters.
- Strings are `seq<char>`, with `NUL` for the C terminator.

What the hardware and the rest of the system supply comes in as parameters:

- chip measurements: the 16-bit result words and the voltage measured during a surge;
- properties read from other power supplies: `RawSoc.Readings` and `MultiCharger.Props`;
- what `sscanf` parsed: `Dwc3Debugfs.Scan`;
- the power-off-charging flag `lpcharge`.

Property writes to chargers are returned as command logs (`RawSoc.ChargerCmd`, `MultiCharger.Cmd`). Each debugfs handler returns the value it would hand to the controller.

| module | file | models |
|---|---|---|
| `CArith` | c_arith.dfy | C integer semantics: truncating division, 16-bit words, two's complement, `^ 0xFFF` |
| `Errno` | errno.dfy | `EFAULT`, `EINVAL` |
| `Optional` | option.dfy | `Option<T>` |
| `Registers` | registers.dfy | the fuel gauge's register file and its write helpers |
| `PowerSupply` | power_supply.dfy | charger modes shared by both drivers |
| `OcvTable` | ocv_table.dfy | the calibration table, its reference interpolation and the two binary searches |
| `Gauge` | gauge.dfy | the driver state `Fuelgauge`, battery data and platform settings |
| `OffsetCodec` | offset_codec.dfy | the offset field of registers 0x4F/0x4E |
| `Surge` | surge.dfy | the surge routines, restart and reset |
| `Decoders` | decoders.dfy | measurement decoders and alert setup |
| `Scaling` | scaling.dfy | capacity scaling, clamping, smoothing, dynamic scale |
| `RawSoc` | raw_soc.dfy | `s2mu004_get_rawsoc` |
| `Capacity` | capacity.dfy | the CAPACITY property |
| `MultiCharger` | multi_charger.dfy | `sec_multi_charger.c` |
| `Dwc3Debugfs` | dwc3_debugfs.dfy | the debugfs write handlers and the debug filter |
| `Pagevec` | pagevec.dfy | `struct pagevec` |

## Model

| member | source | states |
|---|---|---|
| CArith.Div | drivers/battery_v2/s2mu004_fuelgauge.c:931-933 | C division truncates toward zero: the quotient's magnitude is the floor of the magnitudes' quotient, and its sign is the sign of the exact quotient |
| CArith.Word | drivers/battery_v2/s2mu004_fuelgauge.c:635 | the assembled word has `data[1]` as its high byte and `data[0]` as its low byte |
| CArith.Signed16 | drivers/battery_v2/s2mu004_fuelgauge.c:635-644 | the two's-complement value of a 16-bit word: it lies in [-2^15, 2^15), it is congruent to the word modulo 2^16, and it is negative exactly when bit 15 is set |
| CArith.XorLow12 | drivers/battery_v2/s2mu004_fuelgauge.c:174-175 | `x ^ 0xFFF` on an `int` flips the low twelve bits and keeps the higher ones, for negative `x` too |
| OffsetCodec.Signed12 | drivers/battery_v2/s2mu004_fuelgauge.c:161-165 | the signed value of a 12-bit field lies in [-2048, 2048) and is congruent to the field modulo 4096 |
| OffsetCodec.RawField | drivers/battery_v2/s2mu004_fuelgauge.c:158-159 | the field takes bits 11:8 from 0x4F's low nibble and bits 7:0 from 0x4E |
| OffsetCodec.Decode | drivers/battery_v2/s2mu004_fuelgauge.c:161-165 | both branches of the decode give the floor of (signed field × 10000 / 8192) |
| OffsetCodec.Clamp | drivers/battery_v2/s2mu004_fuelgauge.c:168-172 | the corrected offset is limited to ±2490: values inside are kept, and values outside go to the nearer limit |
| OffsetCodec.Encode | drivers/battery_v2/s2mu004_fuelgauge.c:173-177 | the re-encoded field fits 12 bits; its signed value is the truncated quotient v·8192/10000; bit 11 is set exactly when that quotient is negative (v ≤ -2) |
| OffsetCodec.Split | drivers/battery_v2/s2mu004_fuelgauge.c:179-186 | 0x4F keeps its high nibble, and the two written bytes carry exactly the encoded field |
| OffsetCodec.Correct | drivers/battery_v2/s2mu004_fuelgauge.c:155-186 | the correction chain: the value is the clamped (decoded offset + delta), in ±2490; the field encodes it (bit 11 iff negative quotient); 0x4F's high nibble is kept; the bytes carry the field |
| OffsetCodec.CorrectsExactly | drivers/battery_v2/s2mu004_fuelgauge.c:155-186 | the correction outcome is unique: the relational description `Corrects` holds of `Correct` and of nothing else |
| OffsetCodec.CorrectOffset | drivers/battery_v2/s2mu004_fuelgauge.c:158-186 | run statement by statement as the routines do (assemble the field, the bit-11 decode branch, add, clamp to ±2490, truncating re-encode with the `^ 0xFFF` negation, `&= 0xfff`, nibble split), the correction arrives at exactly the outcome `Correct` describes, which satisfies `Corrects` |
| OffsetCodec.DecodeStep | drivers/battery_v2/s2mu004_fuelgauge.c:158-165 | assembling `(v_4f & 0x0F) << 8` plus `v_4e` and taking either decode branch gives the floor of the signed field × 10000 / 8192 |
| OffsetCodec.EncodeStep | drivers/battery_v2/s2mu004_fuelgauge.c:173-177 | the truncating `(a << 13) / 10000`, the negation of a negative quotient and the 12-bit mask give a field in [0, 4096) whose signed value is that truncated quotient |
| OffsetCodec.SplitStep | drivers/battery_v2/s2mu004_fuelgauge.c:179-186 | the byte written to 0x4F keeps its high nibble, and the two bytes written carry exactly the field |
| OffsetCodec.EncodeDecode | drivers/battery_v2/s2mu004_fuelgauge.c:161-177 | round trip field → offset → field: exact for negative fields, and at most one step low for non-negative ones |
| OffsetCodec.EncodeDecodeLosesAStep | drivers/battery_v2/s2mu004_fuelgauge.c:161-177 | the round trip is not exact: field 1 decodes to 1 and re-encodes to 0 |
| OffsetCodec.DecodeEncode | drivers/battery_v2/s2mu004_fuelgauge.c:161-177 | round trip offset → field → offset lands within [v-2, v+1] |
| OcvTable.FirstAtMost | drivers/battery_v2/s2mu004_fuelgauge.c:232-242 | the index where the search's `low` ends: the first key at most the query, with every earlier key above it |
| OcvTable.InterpolationBetween | drivers/battery_v2/s2mu004_fuelgauge.c:243-245 | strictly between two bracketing keys, the truncating interpolation stays between the two paired values, whichever is larger |
| OcvTable.Interpolate | drivers/battery_v2/s2mu004_fuelgauge.c:225-245 | reference lookup: the last entry's value at or below the last key; the first entry's value at or above the first key; the paired value on an exact key; otherwise a value between the bracketing pair |
| OcvTable.Lookup | drivers/battery_v2/s2mu004_fuelgauge.c:225-245 | the clamping and the binary search over descending keys compute exactly the reference `Interpolate` |
| OcvTable.SocFromOcv | drivers/battery_v2/s2mu004_fuelgauge.c:206-250 | `s2mu004_get_soc_from_ocv` is the reference lookup at 10 × target, clamped at both table ends, and inside the table's SOC range |
| OcvTable.SocInRange | drivers/battery_v2/s2mu004_fuelgauge.c:206-250 | the SOC for any voltage lies between the table's lowest and highest SOC |
| OcvTable.OcvFromSoc | drivers/battery_v2/s2mu004_fuelgauge.c:781-823 | `s2mu004_get_ocv` is the reference lookup over the SOC column, clamped at both ends |
| Decoders.Temperature | drivers/battery_v2/s2mu004_fuelgauge.c:524-532 | the decoded temperature is within one unit of the exact signed word / 25.6, is its floor for non-negative words, and lies in [-1280, 1279] |
| Decoders.TemperatureMonotone | drivers/battery_v2/s2mu004_fuelgauge.c:524-532 | a larger signed word never decodes to a lower temperature |
| Decoders.GetTemperature | drivers/battery_v2/s2mu004_fuelgauge.c:509-535 | the monitor is selected to temperature (0x10) and the word is decoded by `Temperature` |
| Decoders.Current | drivers/battery_v2/s2mu004_fuelgauge.c:769-776 | both sign branches together give the floor of (-signed word × 1000 / 4096), in [-8000, 8000] |
| Decoders.CurrentSign | drivers/battery_v2/s2mu004_fuelgauge.c:770-776 | the sign is inverted: a positive current only from a negative word, never from a non-negative one, and always from a word ≤ -5 |
| Decoders.GetAvgCurrent | drivers/battery_v2/s2mu004_fuelgauge.c:824-844 | the average current is decoded like the current, and the monitor is left on temperature |
| Decoders.Vbat | drivers/battery_v2/s2mu004_fuelgauge.c:876 | the voltage is the floor of word × 1000 / 8192, in [0, 8000) |
| Decoders.VbatMonotone | drivers/battery_v2/s2mu004_fuelgauge.c:876 | a larger word never decodes to a lower voltage |
| Decoders.GetMonoutAvgVbat | drivers/battery_v2/s2mu004_fuelgauge.c:881-895 | the monitor-averaged voltage is the floor of word × 1000 / 4096 and fits the `u16`; the monitor is left on temperature |
| Decoders.SmoothedBounds | drivers/battery_v2/s2mu004_fuelgauge.c:907-915 | the halving average of non-negative samples stays between one below the smallest sample and the largest |
| Decoders.GetAvgVbat | drivers/battery_v2/s2mu004_fuelgauge.c:901-924 | the five samples are folded by the halving average; the low-voltage alert moves to recovery exactly when it was active, the battery is above the low-temperature limit and the average reached the recovery voltage; nothing else changes |
| Decoders.AlertLevel | drivers/battery_v2/s2mu004_fuelgauge.c:494-496 | the low nibble holds the truncated (vol - 2800) / 50 modulo 16, and the high nibble holds the SOC threshold modulo 16 |
| Decoders.AlertLevelRoundTrip | drivers/battery_v2/s2mu004_fuelgauge.c:494-496 | for thresholds in range, the voltage step and the SOC read back from the packed byte are the ones programmed |
| Decoders.AlertInit | drivers/battery_v2/s2mu004_fuelgauge.c:489-500 | the IRQ_LVL pair receives the packed thresholds and a zero second byte |
| Decoders.FuelAlertInit | drivers/battery_v2/s2mu004_fuelgauge.c:1008-1027 | the alert flag clears; the thresholds are programmed; the second IRQ byte gets low nibble 0x0C (VBAT/SOC unmasked, IDLE/INIT masked) with its high nibble kept; no other register changes; returns true |
| Scaling.Scale | drivers/battery_v2/s2mu004_fuelgauge.c:926-934 | below `capacity_min` the scaled capacity is 0; otherwise it is the truncated thousandths of the span between `capacity_min` and `capacity_max` |
| Scaling.ScaleEnds | drivers/battery_v2/s2mu004_fuelgauge.c:931-933 | `capacity_max` scales to exactly 1000, and `capacity_min` to 0 |
| Scaling.ScaleFull | drivers/battery_v2/s2mu004_fuelgauge.c:931-933 | with a proper span, a raw SOC at or above `capacity_max` scales to at least 1000 |
| Scaling.ScaleMonotoneInRaw | drivers/battery_v2/s2mu004_fuelgauge.c:931-933 | with a proper span, scaling is monotone in the raw SOC |
| Scaling.CheckCapacityMax | drivers/battery_v2/s2mu004_fuelgauge.c:959-978 | with a non-negative margin the result lies in [max - margin - 10, max + margin]; values in that band pass unchanged; any other value is replaced by max - margin or max + margin |
| Scaling.CheckCapacityMaxIdempotent | drivers/battery_v2/s2mu004_fuelgauge.c:959-978 | checking twice is checking once |
| Scaling.Atomic | drivers/battery_v2/s2mu004_fuelgauge.c:936-958 | the report lies between the old and the new capacity; ATOMIC moves it at most one step; SKIP_ABNORMAL never lets it rise while discharging; otherwise it is the new value |
| Scaling.AtomicExample | drivers/battery_v2/s2mu004_fuelgauge.c:939-945 | old 45 and new 50 report 46 under ATOMIC |
| Scaling.AtomicConverges | drivers/battery_v2/s2mu004_fuelgauge.c:939-945 | repeated ATOMIC reports of a fixed capacity reach it after exactly as many reports as the two differ, and then stay there |
| Scaling.SettleFixed | drivers/battery_v2/s2mu004_fuelgauge.c:936-958 | a report already at the new capacity stays there |
| Scaling.SkipAbnormalNeverRises | drivers/battery_v2/s2mu004_fuelgauge.c:946-955 | under SKIP_ABNORMAL, any number of reports while discharging never rises above the first |
| Scaling.DynamicScale | drivers/battery_v2/s2mu004_fuelgauge.c:979-1007 | `capacity_old` becomes the reported capacity; below 100 % the new `capacity_max` lies in the `check_capacity_max` band; at 100 % it lies in [0, max + margin] |
| Capacity.CapacityTenths | drivers/battery_v2/s2mu004_fuelgauge.c:1211-1223 | `raw_capacity` is in [0, 1000]: unscaled it is rawsoc/10 when that is in range; scaled it is 0 below `capacity_min` and 1000 at or above `capacity_max` |
| Capacity.CapacityTenthsMonotone | drivers/battery_v2/s2mu004_fuelgauge.c:1211-1223 | a larger raw SOC never gives a smaller `raw_capacity` |
| Capacity.VbatlHold | drivers/battery_v2/s2mu004_fuelgauge.c:1226-1233 | discharging under SW_VALERT outside power-off charging, the value is forced to 0 and nothing changes; otherwise the value passes; a recovering alert returns to normal exactly when the value equals `capacity_old` |
| Capacity.ReleaseAlert | drivers/battery_v2/s2mu004_fuelgauge.c:1235-1240 | once the report exceeds the alert SOC after a fuel alert, the alert is re-armed; otherwise the state is unchanged |
| Capacity.UpdateOld | drivers/battery_v2/s2mu004_fuelgauge.c:1248-1270 | after boot or resume, `capacity_old` takes the new value and the pending flag clears; otherwise the report is smoothed and, with ATOMIC/SKIP_ABNORMAL, `capacity_old` equals the report |
| Capacity.Report | drivers/battery_v2/s2mu004_fuelgauge.c:1211-1270 | the percentage report: `raw_capacity` is the clamped capacity; the report lies in 0..100 when `capacity_old` does; with smoothing, `capacity_old` ends equal to the report; only the alert registers change |
| Capacity.ReportSmoothed | drivers/battery_v2/s2mu004_fuelgauge.c:1268-1270 | outside boot/resume resync, ATOMIC reports move at most one percent, and SKIP_ABNORMAL reports never rise while discharging |
| Capacity.ReportHeldAtZero | drivers/battery_v2/s2mu004_fuelgauge.c:1226-1270 | under the low-voltage alert while discharging, the report is 0, or falls toward 0 when smoothing is configured |
| Capacity.ErrorReadsEmpty | drivers/battery_v2/s2mu004_fuelgauge.c:1211-1222 | a raw SOC of `-EINVAL` gives capacity 0 |
| Capacity.AsWrittenReadsEmpty | drivers/battery_v2/s2mu004_fuelgauge.c:1205-1225 | with the debug-log flag clear, a 50.00 % battery reads as 0 through the as-written return, and as 500 through the corrected one |
| Capacity.GetCapacity | drivers/battery_v2/s2mu004_fuelgauge.c:1205-1272 | as written, with `fg_log_enable` clear RAW returns `-EINVAL` and PERCENT stores a `raw_capacity` of 0 (unscaled); the corrected outputs give the SOC capped at 10000 and the clamped capacity of it; with the flag set both agree; DYNAMIC_SCALE returns `raw_capacity` untouched; PERCENT reports 0..100 when `capacity_old` was, with `capacity_old` equal to the report under smoothing; a raw SOC read ends with the regulator command |
| Registers.Write | drivers/battery_v2/s2mu004_fuelgauge.c:38-53 | a byte write, whose I2C retries are assumed to succeed, leaves the value at its register and every other register unchanged |
| Registers.WritePair | drivers/battery_v2/s2mu004_fuelgauge.c:55-61 | with SINGLE_BYTE the 16-bit write is two byte writes: `buf[0]` lands at `reg` and `buf[1]` at `reg+1`, and nothing else changes |
| Registers.WriteBlock | drivers/battery_v2/s2mu004_fuelgauge.c:365-368 | a loop of consecutive byte writes puts each data byte at its address and leaves every other address alone |
| Surge.CorrectAndRestart | drivers/battery_v2/s2mu004_fuelgauge.c:154-200 | from reading the offset to restoring 0x40: the correction satisfies `Corrects`; at the restart the chip holds the corrected bytes; afterwards 0x27, 0x26 and 0x40 hold their saved values and the offset field its entry bytes |
| Surge.Restore | drivers/battery_v2/s2mu004_fuelgauge.c:190-200 | the restore writes put back 0x27, 0x26, the offset field and 0x40 |
| Surge.SurgeAtInit | drivers/battery_v2/s2mu004_fuelgauge.c:117-205 | the correction uses (table OCV for the SOC - 10 × vbat); at the restart the registers are forced, the IRQs are masked and the corrected offset is in place; the only net write is 0x1E = 0x0F |
| Surge.SurgeWindow | drivers/battery_v2/s2mu004_fuelgauge.c:126-188 | at the restart of `WA_0_issue_at_init` the registers are forced, the IRQs are masked and the corrected offset is in place |
| Surge.ForceThenRestore | drivers/battery_v2/s2mu004_fuelgauge.c:137-200 | forcing 0x27/0x26/0x40, strobing and writing the saved values back leaves only the strobe |
| Surge.MaskThenRestore | drivers/battery_v2/s2mu004_fuelgauge.c:127-202 | masking the IRQ pair and restoring the saved pair leaves only the strobe |
| Surge.ForceSurge | drivers/battery_v2/s2mu004_fuelgauge.c:137-147 | the forcing writes of `WA_0_issue_at_init`, together with the saved entry values |
| Surge.SurgeAtInit1 | drivers/battery_v2/s2mu004_fuelgauge.c:251-333 | cold with SOC > 5 %: no register access and the alert goes to SW_VALERT; otherwise the correction uses (10 × target - 10 × vbat), the chip restarts forced with the corrected offset and the IRQs untouched, and the only net write is 0x1E = 0x0F |
| Surge.PowerOffSurge | drivers/battery_v2/s2mu004_fuelgauge.c:264-333 | the register work of `WA_0_issue_at_init1`: corrected offset at the forced restart, IRQs untouched, and only 0x1E changed afterwards |
| Surge.PowerOffWindow | drivers/battery_v2/s2mu004_fuelgauge.c:267-318 | at the restart of `WA_0_issue_at_init1` the registers are forced and hold the corrected offset, and the IRQ pair is untouched |
| Surge.ForcePowerOffSurge | drivers/battery_v2/s2mu004_fuelgauge.c:267-277 | the forcing writes of `WA_0_issue_at_init1`, in its order (0x40 first), together with the saved entry values |
| Surge.ForceThenRestoreAt1E | drivers/battery_v2/s2mu004_fuelgauge.c:267-331 | undoing the forced writes of the power-off surge leaves only 0x1E changed |
| Surge.RestartGauging | drivers/battery_v2/s2mu004_fuelgauge.c:420-463 | during the restart the registers are forced, the IRQs masked and 0x21 = 0x13; afterwards only 0x21 and 0x1E have changed |
| Surge.ResetRegsAt | drivers/battery_v2/s2mu004_fuelgauge.c:334-419 | the driver's write sequence leaves at every address the byte the per-address reference `ResetByte` gives |
| Surge.ResetByteIdempotent | drivers/battery_v2/s2mu004_fuelgauge.c:360-403 | each per-address write of the reset gives the same byte when applied again |
| Surge.ResetIdempotent | drivers/battery_v2/s2mu004_fuelgauge.c:334-419 | a second reset right after the first leaves the registers as the first did |
| Surge.ResetLoadsTables | drivers/battery_v2/s2mu004_fuelgauge.c:361-368 | after a reset every table address holds its battery-data byte, and 0x1F is untouched |
| Surge.LoadKeepsOffset | drivers/battery_v2/s2mu004_fuelgauge.c:361-403 | loading the battery data leaves the offset field 0x4F/0x4E alone, so the surge inside the reset corrects the entry offset |
| Surge.ResetFg | drivers/battery_v2/s2mu004_fuelgauge.c:334-419 | the registers end as `ResetRegs` describes and nothing else in the state changes; the embedded correction starts from the entry offset |
| RawSoc.Strobes | drivers/battery_v2/s2mu004_fuelgauge.c:587-603 | at most two reset strobes: one exactly when the offset differs from the OTP bytes, and a second exactly when the reload still differs |
| RawSoc.Reload | drivers/battery_v2/s2mu004_fuelgauge.c:605-607 | after the reload every table address holds its data byte, and 0x1F is the entry value with the POR bit cleared |
| RawSoc.ResetIfNeeded | drivers/battery_v2/s2mu004_fuelgauge.c:569-609 | a reset happens exactly under the POR/OTP condition; without one nothing changes; with one, charging is stopped first, each strobe is announced, the tables are reloaded and the POR bit is cleared |
| RawSoc.ClearPor | drivers/battery_v2/s2mu004_fuelgauge.c:606-607 | `por & ~0x10` has the POR bit clear |
| RawSoc.StableSample | drivers/battery_v2/s2mu004_fuelgauge.c:612-619 | reference: the first read pair that agrees, or the last pair when none does |
| RawSoc.StableSampleFrom | drivers/battery_v2/s2mu004_fuelgauge.c:612-619 | skipping disagreeing pairs does not move the settled sample |
| RawSoc.ReadStable | drivers/battery_v2/s2mu004_fuelgauge.c:612-619 | the 50-try loop keeps the first word of the first pair of reads that agree, or of the last pair when none does |
| RawSoc.DecodeSoc | drivers/battery_v2/s2mu004_fuelgauge.c:635-644 | the SOC's magnitude is the truncated (word magnitude × 10000 / 16384), with the word's sign, in ±20000 |
| RawSoc.DecodeSocSigned | drivers/battery_v2/s2mu004_fuelgauge.c:637-644 | both branches are one truncating division of the signed word |
| RawSoc.DecodeSocExamples | drivers/battery_v2/s2mu004_fuelgauge.c:635-644 | 0x2000 decodes to 5000 and 0x4000 to 10000 |
| RawSoc.DecodeSocOdd | drivers/battery_v2/s2mu004_fuelgauge.c:637-644 | negating the word negates the SOC |
| RawSoc.DecodeSocMonotone | drivers/battery_v2/s2mu004_fuelgauge.c:637-644 | the decode is monotone in the signed word |
| RawSoc.ApplySoc | drivers/battery_v2/s2mu004_fuelgauge.c:645-647 | the reported SOC is raw + `diff_soc`; on a reset cycle it keeps its previous value; otherwise `diff_soc` is unchanged |
| RawSoc.SocTracksRawAfterReset | drivers/battery_v2/s2mu004_fuelgauge.c:645-647 | after a reset, the reported SOC follows later raw changes from where it stood |
| RawSoc.LowSocStep | drivers/battery_v2/s2mu004_fuelgauge.c:656-669 | LOW_SOC mode is entered only from CURRENT mode (SOC ≤ 300, or OCV ≤ 3600 while barely charging), and left exactly when SOC > 325 and (OCV > 3650 or current ≥ 10) |
| RawSoc.HighSocStep | drivers/battery_v2/s2mu004_fuelgauge.c:693-709 | HIGH_SOC mode is entered only from CURRENT mode, and left only when the scaled SOC is < 970 |
| RawSoc.ModeWrite | drivers/battery_v2/s2mu004_fuelgauge.c:656-709 | 0x4A is written only on a mode change: 0xFF on entering a voltage mode, 0x10 on returning to CURRENT mode |
| RawSoc.FloatVoltage | drivers/battery_v2/s2mu004_fuelgauge.c:674-676 | the float voltage less 0.4 %, truncated |
| RawSoc.UpdateModes | drivers/battery_v2/s2mu004_fuelgauge.c:648-709 | the new mode is the low-SOC step followed by the high-SOC step; only MONOUT_SEL (left on temperature) and 0x4A change; the alert recovery is as in `GetAvgVbat` |
| RawSoc.PowerOffTarget | drivers/battery_v2/s2mu004_fuelgauge.c:712-742 | a correction fires only while discharging beyond 17 mA; at 3300 mV under current fluctuation; otherwise only at steady low voltage, at the OCV estimate, when the table SOC is more than 3 % off |
| RawSoc.PowerOffDecision | drivers/battery_v2/s2mu004_fuelgauge.c:712-742 | the driver's branch structure computes exactly `PowerOffTarget` |
| RawSoc.CheckPowerOff | drivers/battery_v2/s2mu004_fuelgauge.c:716-742 | no target: nothing changes; with a target, `WA_0_issue_at_init1`'s cold case or its single net write 0x1E = 0x0F |
| RawSoc.RawSocReturn | drivers/battery_v2/s2mu004_fuelgauge.c:754-755 | the intended return: the SOC capped at 10000 |
| RawSoc.RawSocReturnAsWritten | drivers/battery_v2/s2mu004_fuelgauge.c:753-759 | as written, the capped SOC is returned only when `fg_log_enable` is set; otherwise the result is `-EINVAL` |
| RawSoc.RawSocAsWrittenDropsValue | drivers/battery_v2/s2mu004_fuelgauge.c:753-759 | a 50.00 % reading comes back as -22 with the flag clear |
| RawSoc.Track | drivers/battery_v2/s2mu004_fuelgauge.c:610-742 | after the reset branch: the SOC minus `diff_soc` is the decoded stable sample; continuity on reset; the temperature is taken from the battery; MONOUT_SEL is left on temperature; 0x1F is untouched |
| RawSoc.Commands | drivers/battery_v2/s2mu004_fuelgauge.c:581-751 | the charger commands end with the regulator choice; they start with charging-off exactly on a reset; charging is re-enabled exactly when it was on before a reset |
| RawSoc.GetRawSoc | drivers/battery_v2/s2mu004_fuelgauge.c:541-760 | the whole call: decode plus continuity, POR cleared after a reset, the command log, the corrected and as-written return values, and the static fields untouched |
| MultiCharger.MainAllowed | drivers/battery_v2/sec_multi_charger.c:18-37 | the main charger may run whenever OTG_OFF is not among the configured conditions (in particular when none is) or OTG is offline; it is stopped exactly when OTG_OFF is configured and OTG is online |
| MultiCharger.NoCharge | drivers/battery_v2/sec_multi_charger.c:532 | no cable counts as a no-charge type; the pogo wireless input and every ordinary charging cable do not |
| MultiCharger.WcinMainInput | drivers/battery_v2/sec_multi_charger.c:53-60 | the main WCIN input is min(total, `max_main_wcin`) when the main charger is allowed, else 0 |
| MultiCharger.WcinSubInput | drivers/battery_v2/sec_multi_charger.c:61-64 | the sub input is `max_sub - main` when `max_sub > main`, else `max_sub` |
| MultiCharger.WcinSplit | drivers/battery_v2/sec_multi_charger.c:53-71 | the inputs are as above, the fast currents add up to the total, and the main fast current is the truncated total × main input / (main + sub input) |
| MultiCharger.ChginMainFast | drivers/battery_v2/sec_multi_charger.c:76-85 | the main CHGIN fast current is `max_total/2` when the wired power covers `max_sub × 5 V`, else the wired fast current |
| MultiCharger.CheckSubChargeCurrent | drivers/battery_v2/sec_multi_charger.c:39-95 | nothing changes outside the normal multi mode or with no cable; otherwise the WCIN or the CHGIN split is applied (sub input `max_sub`, sub fast `max_total/2` on CHGIN) |
| MultiCharger.CheckSubChargeCurrentFrame | drivers/battery_v2/sec_multi_charger.c:39-95 | the split writes only the per-charger currents |
| MultiCharger.FindCable | drivers/battery_v2/sec_multi_charger.c:128-139 | the scan stops at the first occurrence of the cable, and runs to the end exactly when the cable is not listed |
| MultiCharger.CheckSubCharging | drivers/battery_v2/sec_multi_charger.c:97-200 | the early-return chain answers exactly the reference `SubConditionsHold`, and re-splits only when CHARGE_TYPE passes |
| MultiCharger.CurrentNowHysteresis | drivers/battery_v2/sec_multi_charger.c:165-185 | below the threshold the sub charger is off; a stopped one needs a full margin above the threshold; a running one stays on at or above it |
| MultiCharger.Targets | drivers/battery_v2/sec_multi_charger.c:205-216 | in series or with the sub charger off the targets are (total, 0); with auto current they are halves; otherwise the split |
| MultiCharger.SetInputCurrent | drivers/battery_v2/sec_multi_charger.c:202-265 | the cached input limits end at the targets, and the writes are exactly the lower-then-raise sequence |
| MultiCharger.DownNeverRaises | drivers/battery_v2/sec_multi_charger.c:218-242 | the first phase only lowers limits |
| MultiCharger.UpNeverLowers | drivers/battery_v2/sec_multi_charger.c:243-262 | the second phase only raises limits |
| MultiCharger.LowerBeforeRaise | drivers/battery_v2/sec_multi_charger.c:218-262 | no lowering write follows a raising write |
| MultiCharger.InputWrites | drivers/battery_v2/sec_multi_charger.c:218-262 | each limit is written only when it changes and only with its target; BUCK_OFF is sent exactly when main drops to 0; the charge mode is re-sent exactly when main rises from 0 |
| MultiCharger.SetChargingCurrent | drivers/battery_v2/sec_multi_charger.c:267-302 | the cached fast currents end at the targets; each is written exactly when it changed; at most two writes |
| MultiCharger.CheckInputCurrent | drivers/battery_v2/sec_multi_charger.c:320-363 | nothing happens unless the sub charger runs on a charging cable; then it keeps running exactly when the power and input-limit conditions still hold; it is never started; stopping sends charging-off first |
| MultiCharger.CheckEnable | drivers/battery_v2/sec_multi_charger.c:365-408 | nothing changes without a cable, while discharging, outside CHARGING or outside the normal multi mode; otherwise the sub charger follows the conditions and is told so last; a running one whose conditions hold keeps running unless abnormal, when it is stopped; it runs only if they hold; the cached input and fast limits end at the targets for the decided state |
| MultiCharger.SetOnline | drivers/battery_v2/sec_multi_charger.c:525-564 | both chargers get the cable; a no-charge cable zeroes all eight currents, clears the sub charger and resets the multi mode; the path is WCIN exactly for pogo |
| MultiCharger.SetCurrentMax | drivers/battery_v2/sec_multi_charger.c:577-584 | the total input is recorded; the cached input limits end at the targets; the sub charger is never started |
| MultiCharger.SetCurrentNow | drivers/battery_v2/sec_multi_charger.c:585-590 | the total fast current (and the main one on a multi-port main charger) is recorded; the caches end at the targets |
| Dwc3Debugfs.CopyIn | drivers/usb/dwc3/debugfs.c:405-408 | the buffer holds the first `size - 1` bytes of the write, padded with NULs, and always ends in a NUL |
| Dwc3Debugfs.StartsWithIsPrefix | drivers/usb/dwc3/debugfs.c:410-417 | for a name without NUL, `!strncmp(buf, name, strlen(name))` is exactly the prefix test |
| Dwc3Debugfs.CopiedStartsWith | drivers/usb/dwc3/debugfs.c:405-417 | on the copied buffer, a name shorter than the buffer matches exactly when the user's data begins with it |
| Dwc3Debugfs.FirstMatchSelects | drivers/usb/dwc3/debugfs.c:490-501 | when no two names can begin the same input, the first-match chain selects the table's only match, or the default |
| Dwc3Debugfs.ModeWrite | drivers/usb/dwc3/debugfs.c:398-425 | a fault returns -EFAULT; otherwise the count is returned, and the mode is set exactly when the data begins with host, device or otg, with that name's capability |
| Dwc3Debugfs.ModesMatch | drivers/usb/dwc3/debugfs.c:405-417 | the three tests on the buffer are prefix tests on the data, and at most one of them holds |
| Dwc3Debugfs.TestmodeWrite | drivers/usb/dwc3/debugfs.c:478-508 | a fault returns -EFAULT; otherwise the count is returned and the test mode of the matching name (or 0) is always set |
| Dwc3Debugfs.TestModesFit | drivers/usb/dwc3/debugfs.c:485-499 | the test-mode names fit the 32-byte buffer with its NUL |
| Dwc3Debugfs.TestModesDisjoint | drivers/usb/dwc3/debugfs.c:490-499 | no two test-mode names can begin the same input |
| Dwc3Debugfs.LinkStateWrite | drivers/usb/dwc3/debugfs.c:585-617 | the count is returned exactly when a state is set; the errors are -EFAULT or -EINVAL; the state set is that of the matching name |
| Dwc3Debugfs.LinkStatesFit | drivers/usb/dwc3/debugfs.c:592-608 | the link-state names fit the buffer with its NUL |
| Dwc3Debugfs.LinkStatesDisjoint | drivers/usb/dwc3/debugfs.c:597-608 | no two link-state names can begin the same input |
| Dwc3Debugfs.LinkStateAcceptedIff | drivers/usb/dwc3/debugfs.c:594-616 | a write is accepted exactly when it begins with one of the six names |
| Dwc3Debugfs.StoreEpNum | drivers/usb/dwc3/debugfs.c:627-656 | on failure `ep_num` is unchanged and the errno is EFAULT or EINVAL; on success two fields were parsed, dir ≤ 1, and the new `ep_num` is below 32 and below the endpoint count |
| Dwc3Debugfs.StoreEpNumSelects | drivers/usb/dwc3/debugfs.c:637-655 | for num < 2^31 a write is accepted exactly when endpoint 2·num+dir exists, and the stored index decodes back to num and dir |
| Dwc3Debugfs.StoreEpNumWrapsPastBound | drivers/usb/dwc3/debugfs.c:646-649 | the 32-bit wrap of `(num << 1) + dir` lets num = 2^31 pass as index 1 |
| Dwc3Debugfs.AllowDbgPrint | drivers/usb/dwc3/debugfs.c:785-803 | bus-wide events (0xFF) are always logged |
| Dwc3Debugfs.AllowDbgPrintTx | drivers/usb/dwc3/debugfs.c:793-798 | an odd endpoint is logged exactly when bit (ep >> 1) of the TX mask is set |
| Dwc3Debugfs.AllowDbgPrintRx | drivers/usb/dwc3/debugfs.c:793-800 | an even endpoint is logged exactly when bit (ep >> 1) of the RX mask is set |
| Dwc3Debugfs.DefaultMasksLogEndpointZero | drivers/usb/dwc3/debugfs.c:778-803 | with both masks at their default 1, exactly endpoints 0 and 1 and bus-wide events are logged |
| Pagevec.Init | include/linux/pagevec.h:47-52 | the vector is empty, `cold` is the argument's truth, `drained` is false, and count + space = 15 |
| Pagevec.Reinit | include/linux/pagevec.h:54-57 | the vector is empty, and `cold`, `drained` and the slots are kept |
| Pagevec.Count | include/linux/pagevec.h:59-62 | the count is `nr`, at most the fifteen slots of a valid vector |
| Pagevec.Space | include/linux/pagevec.h:59-67 | the space is an unsigned value, and for every valid vector count + space = 15 |
| Pagevec.Add | include/linux/pagevec.h:72-76 | the page lands in slot `nr`, the count grows by one, other slots and flags are kept, and the result is the remaining space, 0 exactly when full |
| Pagevec.Release | include/linux/pagevec.h:78-82 | `__pagevec_release` is called exactly when the count is non-zero |
| Pagevec.AddAllHolds | include/linux/pagevec.h:72-76 | adding a batch appends it after the held pages and keeps the earlier pages, the later slots and the flags |
| Pagevec.FullAfterFifteen | include/linux/pagevec.h:47-82 | fifteen adds after `pagevec_init` leave no space, the slots hold the pages in order, and release is called |

## Left out

- **I2C transport** (`s2mu004_read_reg*`/`s2mu004_write_reg*`). The register file is abstract and writes always land. With `SINGLE_BYTE` set, the reads always return 0, so the error branches after 16-bit reads are unreachable and are not modelled. Registers the chip updates by itself are measurement parameters.
- **Timing and concurrency:** `msleep`, the `fg_lock` mutex (including the unlock-less early return in `s2mu004_get_rawsoc`), spinlocks, wake locks, IRQ threads and work items.
- **Platform plumbing:** device-tree parsing, probe/remove/PM, sysfs attributes, and the show functions and registration of debugfs. `drivers/muic/muic_notifier.c` and the msm LED flash driver are not part of this model.
- **Header constants:** the register addresses IRQ, RVBAT, RCUR_CC, RSOC, MONOUT, MONOUT_SEL, IRQ_LVL and FG_ID come from the chip's header, which is not part of this model. They are given plausible values, and the proofs rely only on their being distinct from the fixed addresses. Other constants are written as the headers define them:
  - `SEC_INPUT_VOLTAGE_5V` = 5;
  - the no-charge cables are NONE, OTG and POWER_SHARING;
  - the USB test modes are 1-5;
  - `DWC3_GCTL_PRTCAP_*` are 1/2/3;
  - the link-state codes;
  - `DWC3_ENDPOINTS_NUM` = 32.
- **`CONFIG_BATTERY_AGE_FORECAST`:**
  - the table per age step is the single `BatteryData` the state holds;
  - the age-reset flag appears only in the reset condition.
- **`CONFIG_SEC_FACTORY`:** the model takes the non-factory build, which sends the IVR command.
- **`rvmsoc`:** `s2mu004_get_rawsoc` selects monitor 0x02 in MONOUT_SEL, reads MONOUT, writes the saved MONOUT_SEL byte back and computes `rvmsoc` from the reading, which is then never used (s2mu004_fuelgauge.c:620-630). The 0x02 write and its restore cancel out, so leaving the sequence out does not change the register model; the discarded value has no effect.
- **`s2mu004_maintain_avgcurrent`:** its static counter would be hidden state between calls. The CURRENT_AVG property is not modelled.
- **`pagevec_lookup_entries`, `pagevec_remove_exceptionals`, `pagevec_lookup`, `pagevec_lookup_range_tag`, `pagevec_lookup_range_nr_tag`, `__pagevec_release`, `__pagevec_lru_add`:** these are only declared in the header (include/linux/pagevec.h:24-38); their bodies are not part of this model.
- **`pagevec_lookup_tag`:** an inline wrapper (include/linux/pagevec.h:40-45) that forwards to the declared-only `pagevec_lookup_range_tag` with `end = (pgoff_t)-1` and ignores its `nr_pages` argument. It is not modelled, because everything it does happens in the callee.
- **Controller calls of the debugfs handlers:** `dwc3_set_mode`, `dwc3_gadget_set_test_mode` and `dwc3_gadget_set_link_state` are not modelled; each handler returns the value it would pass. `copy_from_user` is a `fault` flag, and `sscanf` is its outcome (`Scan`).
- **The CHARGING_ENABLED, STATUS and other pass-through cases of `sec_multi_chg_set_property`:** these are not modelled; only ONLINE, CURRENT_MAX and CURRENT_NOW are.
- **32-bit overflow of `int` arithmetic:** products such as `total_fast * main_input` and `rsoc * 10000` are computed unbounded. The driver's values are far from 2^31.
- Scaling.Scale, Capacity.CapacityTenths: require `capacity_max != capacity_min`, because the source divides by their difference without a check.
- Scaling.DynamicScale: requires `capacity != -1`, because the source divides by `capacity + 1` without a check (s2mu004_fuelgauge.c:997-998), and CHARGE_FULL passes its value through unchecked (s2mu004_fuelgauge.c:1300-1304).
- MultiCharger.NoCharge: `is_nocharge_type` is defined in a header that is not part of this model. The model takes the no-charge cables to be none, OTG and power sharing, Its contract states only that no cable is a no-charge type and that the pogo input and every other charging cable are not; how OTG and power sharing are classified follows that header's usual definition and is not proved.
- MultiCharger.WcinSplit: requires the two WCIN inputs not to sum to 0, because the source divides by that sum without a check.
- MultiCharger.SetChargingCurrent: the locals are `unsigned int` in the source. An `!=` between an `int` cache and an `unsigned` target is the same test as between two `int`s, so the model uses `int`.
- Pagevec.Add: requires `nr < 15`, because on a full vector the source writes past `pages[]`.
- Dwc3Debugfs.StoreEpNumSelects: assumes `num < 2^31`. Only nine bytes are copied, so `sscanf` can parse at most a seven-digit number. `StoreEpNumWrapsPastBound` shows what the wrap would do beyond that bound.
- Dwc3Debugfs.AllowDbgPrint: `1 << n` for n ≥ 32 (endpoints 64 and up) is undefined in C, and the model reads it as "not selected". Its own ensures states only the 0xFF case. The per-direction behaviour is stated by `AllowDbgPrintTx` and `AllowDbgPrintRx`.
- Decoders.GetAvgVbat: the source compares the `u32` average with `sw_vbat_l_recovery_vol` as unsigned. The model compares integers, which agrees for non-negative recovery voltages.

## Findings

| source | as written | input that shows it | evidently intended | confidence | as-written member | corrected member |
|---|---|---|---|---|---|---|
| drivers/battery_v2/s2mu004_fuelgauge.c:753-759 | the capped SOC is returned only inside `if (fuelgauge->pdata->fg_log_enable)`; otherwise control falls into `err`, unlocks a mutex it does not hold, and returns `-EINVAL` | `fg_log_enable` = 0 and a raw SOC word 0x2000 (50.00 %): the call returns -22, and the CAPACITY percentage computed from it is 0 | return `min(info.soc, 10000)` whatever the debug flag says; the flag guards only debug output | medium, not executed | RawSoc.RawSocReturnAsWritten (shown by RawSoc.RawSocAsWrittenDropsValue and Capacity.AsWrittenReadsEmpty) | RawSoc.RawSocReturn (returned by RawSoc.GetRawSoc and feeding the corrected outputs of Capacity.GetCapacity) |
