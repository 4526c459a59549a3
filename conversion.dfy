/** The arithmetic of one measurement: the full-scale voltage of a gain code, the
    voltage of a raw code, the average of the finite samples in millivolts, the
    two-point calibration and the range check of a pH or ORP value. Floats are
    modelled as reals; a sample's `finite` flag stands for the NaN/infinity test. */
module Conversion {
  import opened PhxTypes

  /** A calibrated value with its range classification. */
  datatype Reading = Reading(value: real, error: PhxError)

  function Abs(x: real): real {
    if x < 0.0 then -x else x
  }

  /** Full-scale voltage of a gain code; an unrecognised code selects the widest range. */
  function VoltageRange(gain: bv16): (range: real)
    ensures range in {6.144, 4.096, 2.048, 1.024, 0.512, 0.256}
    ensures !IsGainCode(gain) ==> range == 6.144
  {
    if gain == GAIN_6_144V then 6.144
    else if gain == GAIN_4_096V then 4.096
    else if gain == GAIN_2_048V then 2.048
    else if gain == GAIN_1_024V then 1.024
    else if gain == GAIN_0_512V then 0.512
    else if gain == GAIN_0_256V then 0.256
    else 6.144
  }

  /** The gain code of a full-scale voltage: the inverse of VoltageRange on the six codes. */
  function GainForRange(range: real): Option<bv16> {
    if range == 6.144 then Some(GAIN_6_144V)
    else if range == 4.096 then Some(GAIN_4_096V)
    else if range == 2.048 then Some(GAIN_2_048V)
    else if range == 1.024 then Some(GAIN_1_024V)
    else if range == 0.512 then Some(GAIN_0_512V)
    else if range == 0.256 then Some(GAIN_0_256V)
    else None
  }

  /** Each of the six gain codes has its own full-scale voltage, so the lookup can be
      inverted; from 4.096 V on each step of the gain code halves the range. */
  lemma VoltageRangeRoundTrip(gain: bv16)
    ensures IsGainCode(gain) ==> GainForRange(VoltageRange(gain)) == Some(gain)
    ensures GainForRange(VoltageRange(gain)).Some?
    ensures IsGainCode(gain) && GAIN_4_096V <= gain < GAIN_0_256V ==>
      VoltageRange(gain + 0x0200) * 2.0 == VoltageRange(gain)
  {
  }

  /** Volts of a raw code under full-scale voltage `range` (2048 codes span the range). */
  function SampleVolts(code: int, range: real): (volts: real)
    requires range > 0.0
    ensures 0 <= code ==> 0.0 <= volts
    ensures 0 <= code < 2048 ==> volts < range
    ensures code == 2048 ==> volts == range
  {
    ScaleBounds(code, range);
    (code as real * range) / 2048.0
  }

  lemma ScaleBounds(code: int, range: real)
    requires range > 0.0
    ensures 0 <= code ==> 0.0 <= (code as real * range) / 2048.0
    ensures 0 <= code < 2048 ==> (code as real * range) / 2048.0 < range
  {
  }

  /** Sum of the finite samples of `s`, accumulated front to back. */
  function FiniteSum(s: seq<Sample>): real
    decreases |s|
  {
    if s == [] then 0.0
    else FiniteSum(s[..|s| - 1]) + (if s[|s| - 1].finite then s[|s| - 1].volts else 0.0)
  }

  /** Number of finite samples of `s`. */
  function FiniteCount(s: seq<Sample>): (n: nat)
    decreases |s|
    ensures n <= |s|
  {
    if s == [] then 0
    else FiniteCount(s[..|s| - 1]) + (if s[|s| - 1].finite then 1 else 0)
  }

  /** No finite sample exactly when the count of finite samples is zero. */
  lemma {:induction false} FiniteCountZero(s: seq<Sample>)
    ensures FiniteCount(s) == 0 <==> forall i :: 0 <= i < |s| ==> !s[i].finite
  {
    if s != [] {
      var t := s[..|s| - 1];
      FiniteCountZero(t);
      assert forall i :: 0 <= i < |t| ==> t[i] == s[i];
    }
  }

  /** When every sample is finite, all of them count. */
  lemma {:induction false} FiniteCountAll(s: seq<Sample>)
    requires forall i :: 0 <= i < |s| ==> s[i].finite
    ensures FiniteCount(s) == |s|
  {
    if s != [] {
      var t := s[..|s| - 1];
      assert forall i :: 0 <= i < |t| ==> t[i] == s[i];
      FiniteCountAll(t);
    }
  }

  /** If every finite sample lies in [lo, hi], their sum lies between count*lo and count*hi. */
  lemma {:induction false} FiniteSumBounds(s: seq<Sample>, lo: real, hi: real)
    requires forall i :: 0 <= i < |s| && s[i].finite ==> lo <= s[i].volts <= hi
    ensures SumWithin(FiniteCount(s) as real, FiniteSum(s), lo, hi)
  {
    if s != [] {
      var t := s[..|s| - 1];
      var last := s[|s| - 1];
      assert forall i :: 0 <= i < |t| ==> t[i] == s[i];
      FiniteSumBounds(t, lo, hi);
      if last.finite {
        BoundsStep(FiniteCount(t) as real, FiniteSum(t), last.volts, lo, hi);
      }
    }
  }

  /** `sum` lies between n * lo and n * hi. */
  predicate SumWithin(n: real, sum: real, lo: real, hi: real) {
    n * lo <= sum <= n * hi
  }

  /** Adding one value in [lo, hi] to a sum of n such values. */
  lemma BoundsStep(n: real, sum: real, v: real, lo: real, hi: real)
    requires SumWithin(n, sum, lo, hi) && lo <= v <= hi
    ensures SumWithin(n + 1.0, sum + v, lo, hi)
  {
  }

  /** Mean of the finite samples in millivolts. */
  function MilliVolts(s: seq<Sample>): real
    requires FiniteCount(s) > 0
  {
    (FiniteSum(s) / FiniteCount(s) as real) * 1000.0
  }

  /** The mean lies between the smallest and largest finite sample; in particular
      samples that all read v volts give 1000 * v millivolts. */
  lemma MilliVoltsBounds(s: seq<Sample>, lo: real, hi: real)
    requires FiniteCount(s) > 0
    requires forall i :: 0 <= i < |s| && s[i].finite ==> lo <= s[i].volts <= hi
    ensures lo * 1000.0 <= MilliVolts(s) <= hi * 1000.0
  {
    var n := FiniteCount(s) as real;
    var sum := FiniteSum(s);
    var mean := sum / n;
    assert lo <= mean <= hi by {
      FiniteSumBounds(s, lo, hi);
      MeanBounds(n, sum, lo, hi);
    }
    assert MilliVolts(s) == mean * 1000.0;
  }

  /** A sum of n values in [lo, hi], divided by n > 0, lies in [lo, hi]. */
  lemma MeanBounds(n: real, sum: real, lo: real, hi: real)
    requires n > 0.0 && SumWithin(n, sum, lo, hi)
    ensures lo <= sum / n <= hi
  {
  }

  /** A calibration is applied only when its two reference voltages differ by more than 0.001 mV. */
  predicate IsCalibrated(cal: Calibration) {
    Abs(cal.ref2MilliVolts - cal.ref1MilliVolts) > 0.001
  }

  /** The line through (ref1 mV, ref1 value) and (ref2 mV, ref2 value), evaluated at `mV`
      (extrapolated outside the two points). */
  function Calibrate(cal: Calibration, mV: real): real
    requires IsCalibrated(cal)
  {
    cal.ref1Value + (cal.ref2Value - cal.ref1Value) * (mV - cal.ref1MilliVolts)
                    / (cal.ref2MilliVolts - cal.ref1MilliVolts)
  }

  /** The calibration maps each reference voltage to its reference value. */
  lemma CalibrateThroughPoints(cal: Calibration)
    requires IsCalibrated(cal)
    ensures Calibrate(cal, cal.ref1MilliVolts) == cal.ref1Value
    ensures Calibrate(cal, cal.ref2MilliVolts) == cal.ref2Value
  {
  }

  /** Between any two voltages the calibration changes by the slope of the reference
      line, so it is the unique straight line through the two reference points. */
  lemma CalibrateIsLine(cal: Calibration, x: real, y: real)
    requires IsCalibrated(cal)
    ensures (Calibrate(cal, y) - Calibrate(cal, x)) * (cal.ref2MilliVolts - cal.ref1MilliVolts)
            == (cal.ref2Value - cal.ref1Value) * (y - x)
  {
  }

  /** The calibration record used for a kind: "ph" selects the pH record, any other kind the ORP one. */
  function CalibrationFor(kind: string, phCal: Calibration, orpCal: Calibration): Calibration {
    if kind == "ph" then phCal else orpCal
  }

  /** Clamp `v` into [lo, hi], reporting `low` below and `high` above. */
  function Clamp(v: real, lo: real, hi: real, low: PhxError, high: PhxError): Reading {
    if v < lo then Reading(lo, low)
    else if v > hi then Reading(hi, high)
    else Reading(v, NoError)
  }

  /** Range check of a calibrated value: pH is kept in [0, 14], ORP in [0, 1000];
      any other kind is passed through with no error. */
  function RangeCheck(kind: string, v: real): (r: Reading)
    ensures kind == "ph" ==>
      0.0 <= r.value <= 14.0 &&
      (r.error == PhLow <==> v < 0.0) && (r.error == PhHigh <==> v > 14.0) &&
      (r.error == NoError <==> 0.0 <= v <= 14.0) &&
      (r.error == PhLow ==> r.value == 0.0) && (r.error == PhHigh ==> r.value == 14.0) &&
      (r.error == NoError ==> r.value == v)
    ensures kind == "rx" ==>
      0.0 <= r.value <= 1000.0 &&
      (r.error == OrpLow <==> v < 0.0) && (r.error == OrpHigh <==> v > 1000.0) &&
      (r.error == NoError <==> 0.0 <= v <= 1000.0) &&
      (r.error == OrpLow ==> r.value == 0.0) && (r.error == OrpHigh ==> r.value == 1000.0) &&
      (r.error == NoError ==> r.value == v)
    ensures kind != "ph" && kind != "rx" ==> r == Reading(v, NoError)
  {
    if kind == "ph" then Clamp(v, 0.0, 14.0, PhLow, PhHigh)
    else if kind == "rx" then Clamp(v, 0.0, 1000.0, OrpLow, OrpHigh)
    else Reading(v, NoError)
  }

  /** The PROCESSING step on the collected samples: no finite sample gives 0 with no
      error; otherwise the mean in millivolts is calibrated and range-checked, or
      returned unchanged with no error when the calibration is degenerate. */
  function Process(kind: string, phCal: Calibration, orpCal: Calibration, s: seq<Sample>): Reading {
    if FiniteCount(s) == 0 then Reading(0.0, NoError)
    else
      var mV := MilliVolts(s);
      var cal := CalibrationFor(kind, phCal, orpCal);
      if IsCalibrated(cal) then RangeCheck(kind, Calibrate(cal, mV))
      else Reading(mV, NoError)
  }

  /** What PROCESSING reports, case by case. */
  lemma ProcessCases(kind: string, phCal: Calibration, orpCal: Calibration, s: seq<Sample>)
    ensures FiniteCount(s) == 0 ==> Process(kind, phCal, orpCal, s) == Reading(0.0, NoError)
    ensures FiniteCount(s) > 0 && !IsCalibrated(CalibrationFor(kind, phCal, orpCal)) ==>
      Process(kind, phCal, orpCal, s) == Reading(MilliVolts(s), NoError)
    ensures FiniteCount(s) > 0 && IsCalibrated(CalibrationFor(kind, phCal, orpCal)) ==>
      Process(kind, phCal, orpCal, s) ==
      RangeCheck(kind, Calibrate(CalibrationFor(kind, phCal, orpCal), MilliVolts(s)))
    ensures kind == "ph" && FiniteCount(s) > 0 && IsCalibrated(phCal) ==>
      0.0 <= Process(kind, phCal, orpCal, s).value <= 14.0
    ensures kind == "rx" && FiniteCount(s) > 0 && IsCalibrated(orpCal) ==>
      0.0 <= Process(kind, phCal, orpCal, s).value <= 1000.0
  {
  }

  /** The default records have equal reference voltages, so both leave the mean
      millivolts unchanged. */
  lemma DefaultsUncalibrated(kind: string, s: seq<Sample>)
    requires FiniteCount(s) > 0
    ensures !IsCalibrated(DEFAULT_PH_CAL) && !IsCalibrated(DEFAULT_ORP_CAL)
    ensures Process(kind, DEFAULT_PH_CAL, DEFAULT_ORP_CAL, s) == Reading(MilliVolts(s), NoError)
  {
  }

  /** A pH calibration 0 mV -> 4 and 100 mV -> 7: 50 mV reads 5.5 and 200 mV
      extrapolates to 10, which is inside [0, 14]; 500 mV reads 19 and is clamped. */
  lemma PhCalibrationExample()
    ensures IsCalibrated(Calibration(0.0, 100.0, 4.0, 7.0))
    ensures Calibrate(Calibration(0.0, 100.0, 4.0, 7.0), 0.0) == 4.0
    ensures Calibrate(Calibration(0.0, 100.0, 4.0, 7.0), 100.0) == 7.0
    ensures Calibrate(Calibration(0.0, 100.0, 4.0, 7.0), 50.0) == 5.5
    ensures RangeCheck("ph", Calibrate(Calibration(0.0, 100.0, 4.0, 7.0), 200.0)) == Reading(10.0, NoError)
    ensures RangeCheck("ph", Calibrate(Calibration(0.0, 100.0, 4.0, 7.0), 500.0)) == Reading(14.0, PhHigh)
  {
  }
}
