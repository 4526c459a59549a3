/** Constants, enumerations and records of the ADS1015 pH/ORP driver interface
    (the register layout of the converter, the measurement states and errors,
    the calibration record and the reading request). */
module PhxTypes {

  /** C `uint8_t` and Arduino's 32-bit `unsigned long` (the `millis()` counter). */
  type U8 = x: int | 0 <= x < 0x100
  type U32 = x: int | 0 <= x < 0x1_0000_0000

  const TWO_TO_32: int := 0x1_0000_0000

  datatype Option<T> = None | Some(value: T)

  // I2C addresses selected by the ADDR pin
  const ADDRESS_48: bv8 := 0x48
  const ADDRESS_49: bv8 := 0x49
  const ADDRESS_4A: bv8 := 0x4A
  const ADDRESS_4B: bv8 := 0x4B

  // Pointer register values
  const REG_POINTER_CONVERT: bv8 := 0x00
  const REG_POINTER_CONFIG: bv8 := 0x01

  // Config register fields
  const CONFIG_OS_SINGLE: bv16 := 0x8000
  const CONFIG_MUX_SINGLE_0: bv16 := 0x4000
  const CONFIG_MUX_SINGLE_1: bv16 := 0x5000
  const CONFIG_MUX_SINGLE_2: bv16 := 0x6000
  const CONFIG_MUX_SINGLE_3: bv16 := 0x7000
  const CONFIG_MODE_CONTIN: bv16 := 0x0000
  const CONFIG_DR_1600SPS: bv16 := 0x0080

  // Programmable gain settings
  const GAIN_6_144V: bv16 := 0x0000
  const GAIN_4_096V: bv16 := 0x0200
  const GAIN_2_048V: bv16 := 0x0400
  const GAIN_1_024V: bv16 := 0x0600
  const GAIN_0_512V: bv16 := 0x0800
  const GAIN_0_256V: bv16 := 0x0A00

  /** The six gain codes, widest range first. */
  const GAIN_CODES: seq<bv16> :=
    [GAIN_6_144V, GAIN_4_096V, GAIN_2_048V, GAIN_1_024V, GAIN_0_512V, GAIN_0_256V]

  /** The single-ended input selections AIN0..AIN3. */
  const MUX_CODES: seq<bv16> :=
    [CONFIG_MUX_SINGLE_0, CONFIG_MUX_SINGLE_1, CONFIG_MUX_SINGLE_2, CONFIG_MUX_SINGLE_3]

  /** Bits 9..11 of the config register: the programmable-gain field. */
  const GAIN_FIELD_MASK: bv16 := 0x0E00

  const MAX_AVG_BUFFER: U8 := 10
  const STABILITY_THRESHOLD: real := 0.5

  datatype PhxState = Idle | Collecting | Processing

  datatype PhxError = NoError | PhLow | PhHigh | OrpLow | OrpHigh

  /** Two-point calibration: reference point k maps refK_mV millivolts to refK_value. */
  datatype Calibration = Calibration(
    ref1MilliVolts: real,
    ref2MilliVolts: real,
    ref1Value: real,
    ref2Value: real)

  /** A reading request: measurement kind ("ph" or "rx"), sample count,
      delay between samples in milliseconds, rolling-average depth. */
  datatype Config = Config(kind: string, samples: int, delayMs: int, avgBuffer: U8)

  /** One stored sample, in volts; `finite` is false for a NaN or infinite value. */
  datatype Sample = Sample(volts: real, finite: bool)

  const DEFAULT_PH_CAL: Calibration := Calibration(0.0, 0.0, 4.0, 7.0)
  const DEFAULT_ORP_CAL: Calibration := Calibration(0.0, 0.0, 475.0, 650.0)

  predicate IsGainCode(gain: bv16) {
    gain in GAIN_CODES
  }

  /** The gain codes are pairwise distinct, step by 0x0200 from 0x0000 and
      touch only the gain field of the config register. */
  lemma GainCodesLayout()
    ensures |GAIN_CODES| == 6
    ensures forall i :: 0 <= i < |GAIN_CODES| ==> GAIN_CODES[i] == (i as bv16) * 0x0200
    ensures forall i :: 0 <= i < |GAIN_CODES| ==> GAIN_CODES[i] & !GAIN_FIELD_MASK == 0
    ensures forall i, j :: 0 <= i < j < |GAIN_CODES| ==> GAIN_CODES[i] != GAIN_CODES[j]
  {
  }

  /** The mux constant of input channel ch is 0x4000 + ch * 0x1000. */
  lemma MuxCodesRule()
    ensures |MUX_CODES| == 4
    ensures forall ch :: 0 <= ch < |MUX_CODES| ==> MUX_CODES[ch] == 0x4000 + (ch as bv16) * 0x1000
  {
  }
}
