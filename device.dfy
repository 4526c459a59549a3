/** The ADS1015 measurement channel: a non-blocking state machine
    Idle -> Collecting -> Processing -> Idle that collects voltage samples at a
    set cadence, averages the finite ones, applies the two-point calibration of
    the requested kind and range-checks the result.

    The millisecond clock is passed into each update (the value `millis()` has
    when the update starts and when the sample is stored), and so are the two
    bytes the converter returns for the conversion register; each update
    returns the bus operations it issues. */
module Device {
  import opened PhxTypes
  import opened Registers
  import opened Conversion

  /** The inputs of one updateReading call. */
  datatype Tick = Tick(now: U32, sampleTime: U32, hi: bv8, lo: bv8)

  /** Milliseconds from `last` to `now` on the wrapping 32-bit counter. */
  function Elapsed(now: U32, last: U32): U32 {
    (now - last) % TWO_TO_32
  }

  /** A sample is due once the elapsed time reaches the delay; the signed delay is
      compared after the C conversion to `unsigned long`. */
  predicate Due(now: U32, last: U32, delayMs: int) {
    Elapsed(now, last) >= delayMs % TWO_TO_32
  }

  /** The elapsed time is measured correctly across a wrap of the counter. */
  lemma ElapsedAcrossWrap(last: U32, d: U32)
    ensures Elapsed((last + d) % TWO_TO_32, last) == d
  {
  }

  /** A zero delay makes every update due; a delay of -1 ms is due only when
      the elapsed time is the counter's largest value. */
  lemma DueDelays(now: U32, last: U32)
    ensures Due(now, last, 0)
    ensures Due(now, last, -1) <==> Elapsed(now, last) == TWO_TO_32 - 1
  {
  }

  /** Arduino's constrain(avg, 1, MAX_AVG_BUFFER). */
  function ClampAvg(avg: U8): (n: U8)
    ensures 1 <= n <= MAX_AVG_BUFFER
    ensures 1 <= avg <= MAX_AVG_BUFFER ==> n == avg
    ensures avg < 1 ==> n == 1
    ensures avg > MAX_AVG_BUFFER ==> n == MAX_AVG_BUFFER
  {
    if avg < 1 then 1 else if avg > MAX_AVG_BUFFER then MAX_AVG_BUFFER else avg
  }

  /** The averaging loop of the PROCESSING step: the sum and count of the finite
      samples among the first n. */
  method SumFinite(a: array<Sample>, n: int) returns (sum: real, valid: int)
    requires 0 <= n <= a.Length
    ensures sum == FiniteSum(a[..n]) && valid == FiniteCount(a[..n])
  {
    sum, valid := 0.0, 0;
    for i := 0 to n
      invariant sum == FiniteSum(a[..i]) && valid == FiniteCount(a[..i])
    {
      assert a[..i + 1][..i] == a[..i];
      if a[i].finite {
        sum := sum + a[i].volts;
        valid := valid + 1;
      }
    }
  }

  class ADS1015 {
    var i2cAddress: bv8
    var gain: bv16
    var state: PhxState
    var lastError: PhxError
    var readingComplete: bool
    var lastReading: real
    var phCal: Calibration
    var orpCal: Calibration
    var config: Config
    /** The sample buffer; null when no buffer is allocated. */
    var readings: array?<Sample>
    var avgBufferSize: U8
    var currentSample: int
    var lastSampleTime: U32

    /** While a reading is active the buffer holds exactly `samples` entries, the
        write index stays below it, and the completion flag and error are clear. */
    ghost predicate Valid()
      reads this
    {
      1 <= avgBufferSize <= MAX_AVG_BUFFER &&
      (state != Idle ==>
         readings != null && readings.Length == config.samples &&
         lastError == NoError && !readingComplete) &&
      (state == Collecting ==> 0 <= currentSample < config.samples) &&
      (state == Processing ==> 1 <= currentSample == config.samples)
    }

    /** The fields a reading never changes. */
    ghost function Settings(): (bv8, bv16, Calibration, Calibration)
      reads this
    {
      (i2cAddress, gain, phCal, orpCal)
    }

    /** Whether an update at time `now` takes a sample. */
    ghost predicate TakesSample(now: U32)
      reads this
    {
      state == Collecting && Due(now, lastSampleTime, config.delayMs)
    }

    /** A new channel at `address`, with the field defaults: widest gain, idle,
        no error, no completed reading, uncalibrated pH and ORP records. The
        request record is left unset by the source; here it is an empty one. */
    constructor (address: bv8)
      ensures Valid()
      ensures i2cAddress == address && gain == GAIN_6_144V
      ensures state == Idle && lastError == NoError && !readingComplete && lastReading == 0.0
      ensures phCal == DEFAULT_PH_CAL && orpCal == DEFAULT_ORP_CAL
      ensures readings == null && avgBufferSize == 1 && currentSample == 0 && lastSampleTime == 0
    {
      i2cAddress := address;
      gain := GAIN_6_144V;
      state := Idle;
      lastError := NoError;
      readingComplete := false;
      lastReading := 0.0;
      phCal := DEFAULT_PH_CAL;
      orpCal := DEFAULT_ORP_CAL;
      config := Config("", 0, 0, 0);
      readings := null;
      avgBufferSize := 1;
      currentSample := 0;
      lastSampleTime := 0;
    }

    function GetState(): PhxState
      reads this
    {
      state
    }

    function IsReadingComplete(): bool
      reads this
    {
      readingComplete
    }

    function GetLastReading(): real
      reads this
    {
      lastReading
    }

    function GetLastError(): PhxError
      reads this
    {
      lastError
    }

    method SetGain(g: bv16)
      requires Valid()
      modifies this`gain
      ensures Valid()
      ensures gain == g
    {
      gain := g;
    }

    /** Store a calibration record: "ph" replaces the pH record, "rx" the ORP
        record, any other kind changes nothing. */
    method CalibratePHX(kind: string, cal: Calibration)
      requires Valid()
      modifies this`phCal, this`orpCal
      ensures Valid()
      ensures phCal == if kind == "ph" then cal else old(phCal)
      ensures orpCal == if kind == "rx" then cal else old(orpCal)
    {
      if kind == "ph" {
        phCal := cal;
      } else if kind == "rx" {
        orpCal := cal;
      }
    }

    /** Start a reading with request `cfg`; ignored unless idle. */
    method StartReading(cfg: Config)
      requires Valid()
      requires state == Idle ==> cfg.samples >= 1
      modifies this
      ensures Valid()
      ensures old(state) != Idle ==> unchanged(this)
      ensures old(state) == Idle ==>
        state == Collecting && config == cfg && currentSample == 0 &&
        !readingComplete && lastError == NoError &&
        avgBufferSize == ClampAvg(cfg.avgBuffer) &&
        readings != null && fresh(readings) && readings.Length == cfg.samples &&
        lastReading == old(lastReading) && lastSampleTime == old(lastSampleTime) &&
        Settings() == old(Settings())
    {
      if state != Idle {
        return;
      }
      config := cfg;
      currentSample := 0;
      readingComplete := false;
      lastError := NoError;
      avgBufferSize := ClampAvg(cfg.avgBuffer);
      readings := new Sample[cfg.samples];
      state := Collecting;
    }

    /** One step of the state machine. */
    method UpdateReading(now: U32, sampleTime: U32, hi: bv8, lo: bv8) returns (ops: seq<BusOp>)
      requires Valid()
      modifies this, readings
      ensures Valid()
      // Idle, or Collecting before the delay has passed: nothing changes.
      ensures old(state) == Idle ==> unchanged(this) && ops == []
      ensures old(state) == Collecting && !old(TakesSample(now)) ==> unchanged(this) && ops == []
      // The buffer is written only when a sample is taken.
      ensures old(readings) != null && !old(TakesSample(now)) ==> old(readings)[..] == old(readings[..])
      // A due sample: one read of channel 0, one entry written at the old count.
      ensures old(TakesSample(now)) ==>
        var read := ReadSingleEnded(old(i2cAddress), old(gain), 0, hi, lo);
        ops == read.ops &&
        readings == old(readings) &&
        readings[..] == old(readings[..])[old(currentSample) :=
          Sample(SampleVolts(read.code, VoltageRange(old(gain))), true)] &&
        currentSample == old(currentSample) + 1 &&
        lastSampleTime == sampleTime &&
        (state == Processing <==> currentSample == config.samples) &&
        (state == Collecting <==> currentSample < config.samples) &&
        config == old(config) && lastError == old(lastError) &&
        readingComplete == old(readingComplete) && lastReading == old(lastReading) &&
        avgBufferSize == old(avgBufferSize) && Settings() == old(Settings())
      // Processing: convert, finish, and release the buffer unless no sample was finite.
      ensures old(state) == Processing ==>
        var r := Process(old(config).kind, old(phCal), old(orpCal), old(readings[..]));
        ops == [] && state == Idle && readingComplete &&
        lastReading == r.value && lastError == r.error &&
        (FiniteCount(old(readings[..])) == 0 ==> readings == old(readings)) &&
        (FiniteCount(old(readings[..])) > 0 ==> readings == null) &&
        config == old(config) && currentSample == old(currentSample) &&
        avgBufferSize == old(avgBufferSize) && lastSampleTime == old(lastSampleTime) &&
        Settings() == old(Settings())
    {
      ops := [];
      match state {
        case Collecting =>
          ops := Collect(now, sampleTime, hi, lo);
        case Processing =>
          Finish();
        case Idle =>
      }
    }

    /** The Collecting branch of UpdateReading. */
    method Collect(now: U32, sampleTime: U32, hi: bv8, lo: bv8) returns (ops: seq<BusOp>)
      requires Valid() && state == Collecting
      modifies this, readings
      ensures Valid()
      ensures !old(TakesSample(now)) ==> unchanged(this) && unchanged(readings) && ops == []
      ensures old(TakesSample(now)) ==>
        var read := ReadSingleEnded(old(i2cAddress), old(gain), 0, hi, lo);
        ops == read.ops &&
        readings == old(readings) &&
        readings[..] == old(readings[..])[old(currentSample) :=
          Sample(SampleVolts(read.code, VoltageRange(old(gain))), true)] &&
        currentSample == old(currentSample) + 1 &&
        lastSampleTime == sampleTime &&
        (state == Processing <==> currentSample == config.samples) &&
        (state == Collecting <==> currentSample < config.samples) &&
        config == old(config) && lastError == old(lastError) &&
        readingComplete == old(readingComplete) && lastReading == old(lastReading) &&
        avgBufferSize == old(avgBufferSize) && Settings() == old(Settings())
    {
      ops := [];
      if Due(now, lastSampleTime, config.delayMs) {
        var range := VoltageRange(gain);
        var read := ReadSingleEnded(i2cAddress, gain, 0, hi, lo);
        ops := read.ops;
        readings[currentSample] := Sample(SampleVolts(read.code, range), true);
        lastSampleTime := sampleTime;
        currentSample := currentSample + 1;
        if currentSample >= config.samples {
          state := Processing;
        }
      }
    }

    /** The Processing branch of UpdateReading. */
    method Finish()
      requires Valid() && state == Processing
      modifies this
      ensures Valid()
      ensures
        var r := Process(old(config).kind, old(phCal), old(orpCal), old(readings[..]));
        state == Idle && readingComplete &&
        lastReading == r.value && lastError == r.error &&
        (FiniteCount(old(readings[..])) == 0 ==> readings == old(readings)) &&
        (FiniteCount(old(readings[..])) > 0 ==> readings == null) &&
        config == old(config) && currentSample == old(currentSample) &&
        avgBufferSize == old(avgBufferSize) && lastSampleTime == old(lastSampleTime) &&
        Settings() == old(Settings())
    {
      var sum, valid := SumFinite(readings, config.samples);
      assert readings[..config.samples] == readings[..];
      if valid == 0 {
        lastReading := 0.0;
        state := Idle;
        readingComplete := true;
      } else {
        var mV := (sum / valid as real) * 1000.0;
        var cal := CalibrationFor(config.kind, phCal, orpCal);
        if IsCalibrated(cal) {
          lastReading := Calibrate(cal, mV);
          if config.kind == "ph" {
            if lastReading < 0.0 {
              lastReading := 0.0;
              lastError := PhLow;
            } else if lastReading > 14.0 {
              lastReading := 14.0;
              lastError := PhHigh;
            } else {
              lastError := NoError;
            }
          } else if config.kind == "rx" {
            if lastReading < 0.0 {
              lastReading := 0.0;
              lastError := OrpLow;
            } else if lastReading > 1000.0 {
              lastReading := 1000.0;
              lastError := OrpHigh;
            } else {
              lastError := NoError;
            }
          }
        } else {
          lastReading := mV;
        }
        readings := null;
        readingComplete := true;
        state := Idle;
      }
    }

    /** Abort any reading: release the buffer and return to Idle with the
        completion flag and the error cleared. */
    method CancelReading()
      requires Valid()
      modifies this
      ensures Valid()
      ensures readings == null && state == Idle && !readingComplete && lastError == NoError
      ensures config == old(config) && currentSample == old(currentSample) &&
              lastReading == old(lastReading) && avgBufferSize == old(avgBufferSize) &&
              lastSampleTime == old(lastSampleTime) && Settings() == old(Settings())
    {
      if readings != null {
        readings := null;
      }
      state := Idle;
      readingComplete := false;
      lastError := NoError;
    }

    /** One measurement cycle as the calibration helper drives it: start a
        reading, then update until the state is Idle again, one tick per update.
        With no delay between samples a cycle of n samples ends after exactly
        n + 1 updates with the reading complete. */
    method MeasureCycle(cfg: Config, ticks: seq<Tick>) returns (polls: nat)
      requires Valid()
      requires state == Idle ==> cfg.samples >= 1
      modifies this, readings
      ensures Valid()
      ensures polls <= |ticks|
      ensures state == Idle || polls == |ticks|
      ensures old(state) == Idle && cfg.delayMs == 0 && |ticks| > cfg.samples ==>
        state == Idle && readingComplete && polls == cfg.samples + 1
    {
      ghost var started := state == Idle;
      StartReading(cfg);
      polls := 0;
      while state != Idle && polls < |ticks|
        invariant Valid()
        invariant polls <= |ticks|
        invariant readings == null || readings == old(readings) || fresh(readings)
        invariant started && cfg.delayMs == 0 ==>
          config == cfg &&
          (state == Collecting ==> currentSample == polls) &&
          (state == Processing ==> polls == cfg.samples) &&
          (state == Idle ==> polls == cfg.samples + 1 && readingComplete)
      {
        var tick := ticks[polls];
        var _ := UpdateReading(tick.now, tick.sampleTime, tick.hi, tick.lo);
        polls := polls + 1;
      }
    }
  }
}
