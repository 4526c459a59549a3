# ADS1015 pH / ORP measurement core in Dafny

This project models the measurement core of the `ADS1015` driver class. The class reads
a pH or ORP (redox) probe through an ADS1015 12-bit ADC. The core is a non-blocking state
machine, `Idle -> Collecting -> Processing -> Idle`:

- `StartReading` accepts a request (kind `"ph"` or `"rx"`, sample count, delay between
  samples, rolling-average depth). It allocates the sample buffer and starts collecting.
- Each `UpdateReading` call in `Collecting` takes one sample once the delay has passed. It
  writes the config word for channel 0, reads the conversion register, keeps the top 12
  bits and scales them by the gain's full-scale voltage. When the buffer is full, the
  machine moves to `Processing`.
- The next `UpdateReading` averages the finite samples and converts the mean to millivolts.
  It applies the two-point calibration of the requested kind when the two reference
  voltages differ by more than 0.001 mV. When at least one sample is finite and the
  calibration is not degenerate, it clamps pH to [0, 14] and ORP to [0, 1000] and sets
  the matching error. A degenerate calibration returns the raw mV with NONE, unclamped.
  When no sample is finite the reading is 0 with NONE. The buffer is released except
  when no sample is finite. The machine returns to `Idle` with the completion flag set.
- `CancelReading` returns to `Idle` from any state. `CalibratePHX` stores a calibration
  record. The calibration helper repeats measurement cycles in pairs until both readings
  of a pair lie within 0.5 of their mean.

Modules:

- `PhxTypes`: the header's constants, enumerations and records (`APAPHX_ADS1015.h`).
- `Registers`: byte split and combine, config word, single-ended read. Bus traffic is a
  list of operations.
- `Conversion`: gain lookup, sample voltage, finite average, calibration and range check,
  as functions on reals.
- `Stability`: the stability test of `calibratePHXReading` and its loop.
- `Device`: class `ADS1015` with the fields of the C++ class, the sample buffer as an
  `array?<Sample>`, and the five state-changing operations (`SetGain` among them). The status getters
  (`GetState`, `IsReadingComplete`, `GetLastReading`, `GetLastError`) are Dafny functions
  that return their field, so they have no side effects.

Inputs that the C++ code takes from the hardware are parameters here:

- the two `millis()` readings taken in a sampling step;
- the two bytes the converter returns;
- the outputs of the successive calibration cycles.

A sample is a real plus a `finite` flag, which stands for the `isnan`/`isinf` filter.

Notes on what the code does:

- No code exists for temperature compensation or for a temperature error; the range
  check follows calibration directly.
- A pH calibration 0 mV -> 4, 100 mV -> 7 maps 200 mV to 10. That value is in range, so it
  is not clamped (`Conversion.PhCalibrationExample`).
- The doc comment of `readADC_SingleEnded` gives 0-2047 as the result range. The code
  shifts the unsigned register right by 4, so results go up to 4095
  (`Registers.ReadSingleEnded`).

## Model

| member | source | states |
|---|---|---|
| `PhxTypes.GainCodesLayout` | APAPHX_ADS1015.h:56-61 | The six gain codes are distinct, equal i * 0x0200 and touch only bits 9-11. |
| `PhxTypes.MuxCodesRule` | APAPHX_ADS1015.h:50-53 | The mux code of AIN0..AIN3 is 0x4000 + ch * 0x1000, the rule the read uses. |
| `Registers.Combine` | APAPHX_ADS1015.cpp:98 | The rebuilt 16-bit register value has the first byte received as its high byte and the second as its low byte. |
| `Registers.SplitCombine` | APAPHX_ADS1015.cpp:79-80 | Combining the high and low bytes of any 16-bit value gives the value back. |
| `Registers.WriteRegister` | APAPHX_ADS1015.cpp:76-82 | A register write sends the register pointer and then two bytes that combine to the value, high byte first. |
| `Registers.MuxField` | APAPHX_ADS1015.cpp:58 | For channels 0..3 the computed mux field equals the header's mux constant for that channel. |
| `Registers.ConfigWord` | APAPHX_ADS1015.cpp:53-59 | The config word has the start bit, the 1600 SPS bit, every bit of the gain and every bit of the mux field set. |
| `Registers.ConfigWordOnlyFields` | APAPHX_ADS1015.cpp:53-59 | For any 16-bit gain, the config word sets no bit outside the gain, the 1600 SPS, the mux and the start bits. |
| `Registers.ConfigWordFields` | APAPHX_ADS1015.cpp:53-59 | With a valid gain code, each field of the config word decodes back: start bit 1, mux 4 + channel, the gain, continuous mode, data rate 0b100, low bits 0. |
| `Registers.ReadSingleEnded` | APAPHX_ADS1015.cpp:49-66 | A channel above 3 returns 0 with no bus traffic. Otherwise the read writes the config word, then points at the conversion register and requests its two bytes (readRegister, lines 92-99). It returns the top 12 bits of the combined value (below 4096). |
| `Conversion.VoltageRange` | APAPHX_ADS1015.cpp:211-220 | The gain lookup returns one of the six full-scale voltages; an unrecognised code gives 6.144. |
| `Conversion.VoltageRangeRoundTrip` | APAPHX_ADS1015.cpp:212-219 | Each gain code has its own voltage, so the lookup inverts on the six codes; from 4.096 V down, each code step halves the range. |
| `Conversion.SampleVolts` | APAPHX_ADS1015.cpp:224 | A stored sample of a non-negative code is non-negative. Codes below 2048 stay below the full-scale voltage, and code 2048 equals it. |
| `Conversion.FiniteCount` | APAPHX_ADS1015.cpp:241-246 | The number of finite samples never exceeds the number of samples. |
| `Conversion.FiniteCountZero` | APAPHX_ADS1015.cpp:249 | The finite count is zero exactly when no sample is finite. |
| `Conversion.FiniteCountAll` | APAPHX_ADS1015.cpp:241-246 | When every sample is finite, every sample counts. |
| `Conversion.FiniteSumBounds` | APAPHX_ADS1015.cpp:241-246 | If every finite sample lies in [lo, hi], the sum lies between count * lo and count * hi. |
| `Conversion.MilliVoltsBounds` | APAPHX_ADS1015.cpp:257 | The millivolt mean lies between 1000 times the smallest and 1000 times the largest finite sample. |
| `Conversion.CalibrateThroughPoints` | APAPHX_ADS1015.cpp:265-268 | The calibration line gives ref1_value at ref1_mV and ref2_value at ref2_mV. |
| `Conversion.CalibrateIsLine` | APAPHX_ADS1015.cpp:265-268 | Between any two voltages the calibrated value changes at the slope of the reference line, so the result is extrapolated, not clamped. |
| `Conversion.RangeCheck` | APAPHX_ADS1015.cpp:271-298 | For "ph" the result lies in [0, 14]: PH_LOW exactly below 0 with the value clamped to 0, PH_HIGH exactly above 14 with the value clamped to 14, otherwise NONE and the value unchanged. "rx" does the same on [0, 1000] with the ORP codes, clamping to 0 and 1000. Any other kind passes through with NONE. |
| `Conversion.ProcessCases` | APAPHX_ADS1015.cpp:236-301 | No finite sample gives 0 with NONE. A degenerate calibration gives the raw mean mV with NONE. Otherwise the result is the range-checked calibration, in range for "ph" and "rx". |
| `Conversion.DefaultsUncalibrated` | APAPHX_ADS1015.h:182-183 | Both default records have equal reference voltages, so a reading reports the raw mV. |
| `Conversion.PhCalibrationExample` | APAPHX_ADS1015.cpp:263-283 | With 0 mV -> 4 and 100 mV -> 7: 0 -> 4, 100 -> 7, 50 -> 5.5 and 200 -> 10 with NONE; 500 mV clamps to 14 with PH_HIGH. |
| `Stability.CalibrationConfig` | APAPHX_ADS1015.cpp:113-118 | The calibration request keeps the kind and asks for exactly 100 samples, 10 ms apart, with averaging depth 1. |
| `Stability.StableIffClose` | APAPHX_ADS1015.cpp:138-139 | Both readings lie within the threshold of their mean exactly when they differ by less than twice the threshold. |
| `Stability.CalibrationReading` | APAPHX_ADS1015.cpp:121-141 | The loop stops at the first pair whose readings are both within the threshold of their mean, and returns that mean. No earlier pair was stable. None means no pair was stable. |
| `Device.ElapsedAcrossWrap` | APAPHX_ADS1015.cpp:209 | The unsigned elapsed time since the last sample stays correct when the 32-bit millisecond counter wraps. |
| `Device.DueDelays` | APAPHX_ADS1015.cpp:209 | A zero delay makes every update due. A delay of -1, converted to unsigned long, is due only at the largest elapsed value. |
| `Device.ClampAvg` | APAPHX_ADS1015.cpp:178 | The averaging-buffer size is avg_buffer clamped to [1, MAX_AVG_BUFFER = 10]. |
| `Device.SumFinite` | APAPHX_ADS1015.cpp:238-246 | The averaging loop returns the sum and count of the finite samples. |
| `Device.ADS1015.constructor` | APAPHX_ADS1015.h:175-192 | A new instance is Idle with NONE, no completed reading, last reading 0, gain 0x0000, default calibrations and no buffer. |
| `Device.ADS1015.SetGain` | APAPHX_ADS1015.cpp:37-39 | The gain becomes the given code and nothing else changes. |
| `Device.ADS1015.CalibratePHX` | APAPHX_ADS1015.cpp:151-157 | "ph" replaces only the pH record, "rx" only the ORP record, and any other kind changes nothing. |
| `Device.ADS1015.StartReading` | APAPHX_ADS1015.cpp:166-190 | A non-Idle instance is unchanged. From Idle the instance is Collecting with count 0, completion false, NONE, the request stored, buffer size clamp(avg, 1, 10), and a fresh buffer of `samples` entries. |
| `Device.ADS1015.UpdateReading` | APAPHX_ADS1015.cpp:206-314 | In Idle, and in Collecting before the delay has passed, nothing changes. A due sample writes exactly one entry at the old count and adds 1 to the count. The state becomes Processing exactly when the count reaches `samples`. Processing ends as `Finish` states. The invariant holds throughout: write index below `samples`, count at most `samples`. |
| `Device.ADS1015.Collect` | APAPHX_ADS1015.cpp:208-234 | A due update reads channel 0 and stores raw * range / 2048 at index `_currentSample`. It records the sample time and moves to Processing exactly at the last sample. A non-due update changes nothing. |
| `Device.ADS1015.Finish` | APAPHX_ADS1015.cpp:236-309 | The result and error are those of `Conversion.Process` on the buffer. The state becomes Idle with the completion flag set. The buffer is released unless no sample was finite. |
| `Device.ADS1015.CancelReading` | APAPHX_ADS1015.cpp:322-330 | From any state the result is Idle, completion false, NONE and no buffer. |
| `Device.ADS1015.MeasureCycle` | APAPHX_ADS1015.cpp:123-126 | Start, then update until Idle. With a zero delay, an n-sample cycle ends after exactly n + 1 updates with the reading complete. |

## Left out

- Bus I/O: `begin()`/`Wire.begin` and the Wire transmissions are foreign calls. Reads and writes are lists of `BusOp` values. The bytes the device returns are inputs. An empty receive buffer (`Wire.read()` returning -1) is not modelled.
- `Registers.Combine`: takes the first byte received as the high byte. C++ leaves the order of the two `Wire.read()` calls in one expression unspecified.
- Blocking waits: `delay(1)` after the config write and `delay(500)` between calibration cycles take no part in the model.
- Clock: `millis()` is two parameters of `UpdateReading`, the value at the due check and the value stored as the sample time.
- Floating point: floats are reals, so there is no IEEE-754 rounding. The constants 0.001, 6.144 and so on are exact decimals. NaN and infinity are the `finite` flag. A sample the model stores is always finite, so the zero-finite-samples path is reached only through buffer contents that the conversion functions take as arbitrary.
- Rolling average: the contents of `_lastReadings`, `_readingIndex` and `_rollingAverageReady` are never used by the source. Only the clamped size `avgBufferSize` is kept.
- Heap: `new`/`delete` become a fresh Dafny array and a `null` field. A new array holds Dafny's default samples instead of indeterminate floats. The source never reads them before writing them.
- `Device.ADS1015.StartReading`: requires `samples >= 1` when the instance is Idle. With 0 the source allocates an empty buffer and the first due update writes past it. A negative count makes the allocation itself undefined.
- `Stability.CalibrationReading`: the source's do-while loop keeps taking cycles until a pair is stable and may never end. The model walks a finite sequence of observed pairs and returns None when they run out. The cycles that produce each reading are modelled one at a time by `Device.ADS1015.MeasureCycle`, not chained into the calibration loop.
- `Stability.CalibrationConfig`: only records the request constants of `calibratePHXReading` (100 samples, 10 ms, depth 1). No lemma runs `Device.ADS1015.MeasureCycle` on that request, because `MeasureCycle` is proved for a zero delay only.
- Integer widths: the request's `samples` and `delay_ms` are unbounded integers. The sample count cannot overflow because it stays below `samples`.
- Temperature compensation, its error code and calibration persistence: the source has no code for them.
