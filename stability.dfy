/** The stability test of a calibration reading (calibratePHXReading): pairs of
    full measurement cycles are taken until both readings of a pair lie within
    STABILITY_THRESHOLD of the pair's mean, and that mean is returned. The
    source loops without bound on live readings; here the readings of the
    successive pairs are given as a finite sequence, and running out of them
    before a stable pair is reported as None. */
module Stability {
  import opened PhxTypes
  import opened Conversion

  /** The request used for each calibration cycle: 100 samples, 10 ms apart, no averaging. */
  const CALIBRATION_SAMPLES: int := 100
  const CALIBRATION_DELAY_MS: int := 10

  function CalibrationConfig(kind: string): (cfg: Config)
    ensures cfg.kind == kind && cfg.avgBuffer == 1
    ensures cfg.samples == CALIBRATION_SAMPLES && cfg.delayMs == CALIBRATION_DELAY_MS
    ensures cfg.samples >= 1
  {
    Config(kind, CALIBRATION_SAMPLES, CALIBRATION_DELAY_MS, 1)
  }

  function PairMean(first: real, second: real): real {
    (first + second) / 2.0
  }

  /** The loop's exit condition: both readings are within the threshold of their mean. */
  predicate Stable(first: real, second: real) {
    Abs(PairMean(first, second) - first) < STABILITY_THRESHOLD &&
    Abs(PairMean(first, second) - second) < STABILITY_THRESHOLD
  }

  /** Both readings lie within the threshold of their mean exactly when they differ
      by less than twice the threshold. */
  lemma StableIffClose(first: real, second: real)
    ensures Stable(first, second) <==> Abs(first - second) < 2.0 * STABILITY_THRESHOLD
  {
  }

  predicate PairStable(cycles: seq<(real, real)>, k: int)
    requires 0 <= k < |cycles|
  {
    Stable(cycles[k].0, cycles[k].1)
  }

  /** The do-while loop over the observed pairs: stop at the first stable pair and
      return its mean. */
  method CalibrationReading(cycles: seq<(real, real)>) returns (r: Option<real>)
    ensures r.Some? ==>
      exists k :: 0 <= k < |cycles| && PairStable(cycles, k) &&
        r.value == PairMean(cycles[k].0, cycles[k].1) &&
        forall j :: 0 <= j < k ==> !PairStable(cycles, j)
    ensures r.None? <==> forall k :: 0 <= k < |cycles| ==> !PairStable(cycles, k)
  {
    var k := 0;
    while k < |cycles| && !Stable(cycles[k].0, cycles[k].1)
      invariant 0 <= k <= |cycles|
      invariant forall j :: 0 <= j < k ==> !PairStable(cycles, j)
    {
      k := k + 1;
    }
    if k < |cycles| {
      assert PairStable(cycles, k);
      r := Some(PairMean(cycles[k].0, cycles[k].1));
    } else {
      r := None;
    }
  }
}
