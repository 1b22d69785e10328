/** main/position_sensor.cpp: sensor calibration, the offset correction and
    low-pass filter of `readPosition`, the filter settings, and the stored
    calibration check. IMU reads are inputs; the `atan2`/`sqrt` tilt
    computation is the parameter `tilt`. */
module PositionSensor {
  import opened Common
  import opened Helpers

  /** Number of calibration samples (`total_samples`). */
  const TotalSamples: nat := 500

  /** Accelerometer sanity bound for calibration samples, in g. */
  const AccelBound: real := 10.0

  /** Smallest usable acceleration magnitude, in g. */
  const MagnitudeThreshold: real := 0.1

  /** Filter coefficient at start-up. */
  const InitialAlpha: real := 0.2

  /** Sentinel default used when probing for a stored calibration. */
  const NoCalibration: real := -999.0

  // ---------------------------------------------------------------------
  // Calibration

  /** One reading of the six IMU channels (accelerometer in g, gyroscope
      in degrees per second). */
  datatype Sample = Sample(ax: Float, ay: Float, az: Float, gx: Float, gy: Float, gz: Float)

  /** A calibration sample counts iff no channel is not-a-number and every
      accelerometer channel is strictly inside the sanity bound; the
      gyroscope is not bounded. */
  predicate Accepted(s: Sample)
  {
    !IsNaN(s.ax) && !IsNaN(s.ay) && !IsNaN(s.az)
    && !IsNaN(s.gx) && !IsNaN(s.gy) && !IsNaN(s.gz)
    && Abs(s.ax.value) < AccelBound && Abs(s.ay.value) < AccelBound && Abs(s.az.value) < AccelBound
  }

  datatype Axis = AX | AY | AZ | GX | GY | GZ

  function Channel(s: Sample, a: Axis): Float
  {
    match a
    case AX => s.ax
    case AY => s.ay
    case AZ => s.az
    case GX => s.gx
    case GY => s.gy
    case GZ => s.gz
  }

  predicate IsAccel(a: Axis) { a == AX || a == AY || a == AZ }

  /** How many of the samples are accepted. */
  function AcceptedCount(samples: seq<Sample>): nat
  {
    if |samples| == 0 then 0
    else AcceptedCount(samples[..|samples| - 1]) + (if Accepted(samples[|samples| - 1]) then 1 else 0)
  }

  /** The sum of one channel over the accepted samples. */
  function AxisSum(samples: seq<Sample>, a: Axis): real
  {
    if |samples| == 0 then 0.0
    else
      var last := samples[|samples| - 1];
      AxisSum(samples[..|samples| - 1], a) + (if Accepted(last) then Channel(last, a).value else 0.0)
  }

  /** The six calibration offsets. */
  datatype Offsets = Offsets(ax: real, ay: real, az: real, gx: real, gy: real, gz: real)

  /** The offsets calibration leaves: the per-channel mean of the accepted
      samples, the vertical accelerometer moved down by 1 g; the previous
      offsets when no sample was accepted. */
  function CalibrationResult(samples: seq<Sample>, previous: Offsets): Offsets
  {
    var n := AcceptedCount(samples);
    if n > 0 then
      Offsets(AxisSum(samples, AX) / n as real, AxisSum(samples, AY) / n as real,
              AxisSum(samples, AZ) / n as real - 1.0,
              AxisSum(samples, GX) / n as real, AxisSum(samples, GY) / n as real,
              AxisSum(samples, GZ) / n as real)
    else previous
  }

  lemma {:induction false} AcceptedCountBounds(samples: seq<Sample>)
    ensures AcceptedCount(samples) <= |samples|
  {
    if |samples| > 0 {
      AcceptedCountBounds(samples[..|samples| - 1]);
    }
  }

  /** A sample that is rejected leaves the calibration exactly as if it had
      not been taken. */
  lemma RejectedSampleIgnored(samples: seq<Sample>, x: Sample, previous: Offsets)
    requires !Accepted(x)
    ensures CalibrationResult(samples + [x], previous) == CalibrationResult(samples, previous)
  {
    assert (samples + [x])[..|samples|] == samples;
  }

  /** With no accepted sample the offsets are not touched (in particular,
      not reset to zero). */
  lemma {:induction false} NoAcceptedSampleKeepsOffsets(samples: seq<Sample>, previous: Offsets)
    requires forall i :: 0 <= i < |samples| ==> !Accepted(samples[i])
    ensures AcceptedCount(samples) == 0
    ensures CalibrationResult(samples, previous) == previous
  {
    if |samples| > 0 {
      NoAcceptedSampleKeepsOffsets(samples[..|samples| - 1], previous);
    }
  }

  /** Every sample is the same reading. */
  predicate Steady(samples: seq<Sample>, x: Sample)
  {
    forall i :: 0 <= i < |samples| ==> samples[i] == x
  }

  lemma {:induction false} ConstantSums(samples: seq<Sample>, x: Sample, a: Axis)
    requires Accepted(x)
    requires Steady(samples, x)
    ensures AcceptedCount(samples) == |samples|
    ensures AxisSum(samples, a) == |samples| as real * Channel(x, a).value
  {
    if |samples| > 0 {
      ConstantSums(samples[..|samples| - 1], x, a);
    }
  }

  /** A steady sensor calibrates to its own reading, less 1 g vertically:
      a level sensor reading (0, 0, 1) g gets accelerometer offsets
      (0, 0, 0). */
  lemma {:induction false} SteadySensorCalibration(samples: seq<Sample>, x: Sample, previous: Offsets)
    requires |samples| > 0 && Accepted(x)
    requires Steady(samples, x)
    ensures CalibrationResult(samples, previous)
            == Offsets(x.ax.value, x.ay.value, x.az.value - 1.0, x.gx.value, x.gy.value, x.gz.value)
  {
    SteadyMean(samples, x, AX);
    SteadyMean(samples, x, AY);
    SteadyMean(samples, x, AZ);
    SteadyMean(samples, x, GX);
    SteadyMean(samples, x, GY);
    SteadyMean(samples, x, GZ);
  }

  lemma {:induction false} SteadyMean(samples: seq<Sample>, x: Sample, a: Axis)
    requires |samples| > 0 && Accepted(x)
    requires Steady(samples, x)
    ensures AcceptedCount(samples) == |samples|
    ensures AxisSum(samples, a) / AcceptedCount(samples) as real == Channel(x, a).value
  {
    var n, sum, v := AcceptedCount(samples), AxisSum(samples, a), Channel(x, a).value;
    assert n == |samples| && sum == n as real * v by {
      ConstantSums(samples, x, a);
    }
    MeanOfConstant(sum, n, v);
  }

  lemma MeanOfConstant(sum: real, n: nat, v: real)
    requires n > 0 && sum == n as real * v
    ensures sum / n as real == v
  {
  }

  lemma {:induction false} AccelSumBounds(samples: seq<Sample>, a: Axis)
    requires IsAccel(a)
    ensures -AccelBound * AcceptedCount(samples) as real <= AxisSum(samples, a)
            <= AccelBound * AcceptedCount(samples) as real
    ensures AcceptedCount(samples) > 0 ==>
              -AccelBound * AcceptedCount(samples) as real < AxisSum(samples, a)
              < AccelBound * AcceptedCount(samples) as real
  {
    if |samples| > 0 {
      AccelSumBounds(samples[..|samples| - 1], a);
    }
  }

  /** Calibrated accelerometer offsets are means of values inside the
      sanity bound: x and y lie in (-10, 10) g, z in (-11, 9) g. */
  lemma CalibratedAccelOffsetsBounded(samples: seq<Sample>, previous: Offsets)
    requires AcceptedCount(samples) > 0
    ensures var o := CalibrationResult(samples, previous);
            -AccelBound < o.ax < AccelBound && -AccelBound < o.ay < AccelBound
            && -AccelBound - 1.0 < o.az < AccelBound - 1.0
  {
    var n := AcceptedCount(samples) as real;
    AccelSumBounds(samples, AX);
    AccelSumBounds(samples, AY);
    AccelSumBounds(samples, AZ);
    MeanBounded(AxisSum(samples, AX), n);
    MeanBounded(AxisSum(samples, AY), n);
    MeanBounded(AxisSum(samples, AZ), n);
  }

  lemma MeanBounded(sum: real, n: real)
    requires n > 0.0 && -AccelBound * n < sum < AccelBound * n
    ensures -AccelBound < sum / n < AccelBound
  {
    assert sum == (sum / n) * n;
  }

  // ---------------------------------------------------------------------
  // Filter and estimate

  datatype Vec3 = Vec3(x: real, y: real, z: real)

  /** One step of the exponential filter on one channel. */
  function Smooth(state: real, alpha: real, input: real): real
  {
    alpha * state + (1.0 - alpha) * input
  }

  /** The filter step `readPosition` applies to all three channels. */
  function FilterStep(state: Vec3, alpha: real, input: Vec3): Vec3
  {
    Vec3(Smooth(state.x, alpha, input.x), Smooth(state.y, alpha, input.y),
         Smooth(state.z, alpha, input.z))
  }

  /** The filter state after a run of inputs. */
  function FilterRun(state: Vec3, alpha: real, inputs: seq<Vec3>): Vec3
  {
    if |inputs| == 0 then state
    else FilterStep(FilterRun(state, alpha, inputs[..|inputs| - 1]), alpha, inputs[|inputs| - 1])
  }

  /** `alpha` = 0 is no filtering: the state becomes the input. */
  lemma FilterAlphaZero(state: Vec3, input: Vec3)
    ensures FilterStep(state, 0.0, input) == input
  {
  }

  /** `alpha` = 1 freezes the filter. */
  lemma FilterAlphaOne(state: Vec3, input: Vec3)
    ensures FilterStep(state, 1.0, input) == state
  {
  }

  /** With `alpha` = 1 no run of inputs ever moves the state. */
  lemma {:induction false} FilterRunAlphaOne(state: Vec3, inputs: seq<Vec3>)
    ensures FilterRun(state, 1.0, inputs) == state
  {
    if |inputs| > 0 {
      FilterRunAlphaOne(state, inputs[..|inputs| - 1]);
    }
  }

  /** With `alpha` = 0 the filter is memoryless: after any run it holds the
      latest input. */
  lemma FilterRunAlphaZero(state: Vec3, inputs: seq<Vec3>)
    requires |inputs| > 0
    ensures FilterRun(state, 0.0, inputs) == inputs[|inputs| - 1]
  {
  }

  /** A smoothed value lies between the old state and the input. */
  lemma SmoothBetween(state: real, alpha: real, input: real)
    requires 0.0 <= alpha <= 1.0
    ensures state <= input ==> state <= Smooth(state, alpha, input) <= input
    ensures input <= state ==> input <= Smooth(state, alpha, input) <= state
  {
    var d := input - state;
    assert Smooth(state, alpha, input) == input - alpha * d;
    MulNonneg(alpha, if d >= 0.0 then d else -d);
    MulNonneg(1.0 - alpha, if d >= 0.0 then d else -d);
  }

  lemma MulNonneg(a: real, b: real)
    requires a >= 0.0 && b >= 0.0
    ensures a * b >= 0.0
  {
  }

  predicate InBox(v: Vec3, lo: real, hi: real)
  {
    lo <= v.x <= hi && lo <= v.y <= hi && lo <= v.z <= hi
  }

  /** Filter stability: for `alpha` in [0, 1], a state and inputs within a
      box keep the state within that box through any run. */
  lemma {:induction false} FilterRunStaysInBox(state: Vec3, alpha: real, inputs: seq<Vec3>, lo: real, hi: real)
    requires 0.0 <= alpha <= 1.0 && InBox(state, lo, hi)
    requires forall i :: 0 <= i < |inputs| ==> InBox(inputs[i], lo, hi)
    ensures InBox(FilterRun(state, alpha, inputs), lo, hi)
  {
    if |inputs| > 0 {
      var prefix := inputs[..|inputs| - 1];
      FilterRunStaysInBox(state, alpha, prefix, lo, hi);
      var s := FilterRun(state, alpha, prefix);
      var x := inputs[|inputs| - 1];
      SmoothBetween(s.x, alpha, x.x);
      SmoothBetween(s.y, alpha, x.y);
      SmoothBetween(s.z, alpha, x.z);
    }
  }

  /** A filter whose state equals a steady input stays there. */
  lemma FilterFixedPoint(v: Vec3, alpha: real)
    ensures FilterStep(v, alpha, v) == v
  {
  }

  /** The squared magnitude; `sqrt(m) < 0.1` is `m < 0.01` over the reals. */
  function SquaredMagnitude(v: Vec3): real
  {
    v.x * v.x + v.y * v.y + v.z * v.z
  }

  /** The tail of `readPosition` after filtering: reject a weak signal,
      compute the angles, reject an invalid pair. */
  function Estimate(v: Vec3, tilt: Vec3 -> Angles): (r: Option<Angles>)
    ensures r.Some? ==> r.value == tilt(v) && IsValidPosition(r.value.pitch, r.value.roll)
    ensures r.Some? <==> SquaredMagnitude(v) >= MagnitudeThreshold * MagnitudeThreshold
                         && IsValidPosition(tilt(v).pitch, tilt(v).roll)
  {
    if SquaredMagnitude(v) < MagnitudeThreshold * MagnitudeThreshold then None
    else
      var angles := tilt(v);
      if !IsValidPosition(angles.pitch, angles.roll) then None else Some(angles)
  }

  /** A free-falling or disconnected sensor reading (0, 0, 0) yields no
      position. */
  lemma ZeroSignalRejected(tilt: Vec3 -> Angles)
    ensures Estimate(Vec3(0.0, 0.0, 0.0), tilt).None?
  {
  }

  /** Each channel of `v` lies between the same channel of `a` and of `b`. */
  predicate ChannelsBetween(v: Vec3, a: Vec3, b: Vec3)
  {
    (a.x <= v.x <= b.x || b.x <= v.x <= a.x)
    && (a.y <= v.y <= b.y || b.y <= v.y <= a.y)
    && (a.z <= v.z <= b.z || b.z <= v.z <= a.z)
  }

  /** One filter step moves every channel towards the input without
      overshooting it. */
  lemma FilterStepBetween(state: Vec3, alpha: real, input: Vec3)
    requires 0.0 <= alpha <= 1.0
    ensures ChannelsBetween(FilterStep(state, alpha, input), state, input)
  {
    SmoothBetween(state.x, alpha, input.x);
    SmoothBetween(state.y, alpha, input.y);
    SmoothBetween(state.z, alpha, input.z);
  }

  /** The accelerometer reading less the offsets. */
  function Calibrated(ax: real, ay: real, az: real, offsets: Offsets): Vec3
  {
    Vec3(ax - offsets.ax, ay - offsets.ay, az - offsets.az)
  }

  /** What one `readPosition` call does, given the offsets, coefficient and
      filter switch it runs with and the filter state before and after it:
      a not-a-number channel fails with the state untouched; otherwise the
      state takes one filter step when filtering is on, and the outcome is
      the estimate of the filtered or the calibrated vector. */
  predicate ReadPositionOutcome(ax: Float, ay: Float, az: Float, offsets: Offsets, alpha: real,
                                useFiltering: bool, before: Vec3, after: Vec3,
                                tilt: Vec3 -> Angles, r: Option<Angles>)
  {
    if IsNaN(ax) || IsNaN(ay) || IsNaN(az) then r.None? && after == before
    else
      var calibrated := Calibrated(ax.value, ay.value, az.value, offsets);
      && after == (if useFiltering then FilterStep(before, alpha, calibrated) else before)
      && r == Estimate(if useFiltering then after else calibrated, tilt)
  }

  /** The sensor globals: offsets, filter coefficient, filter state and the
      filter switch. */
  class Sensor {
    var axOffset: real
    var ayOffset: real
    var azOffset: real
    var gxOffset: real
    var gyOffset: real
    var gzOffset: real
    var alpha: real
    var filteredAx: real
    var filteredAy: real
    var filteredAz: real
    var useFiltering: bool

    /** The filter coefficient stays in [0, 1]. */
    ghost predicate Valid()
      reads this
    {
      0.0 <= alpha <= 1.0
    }

    function CurrentOffsets(): Offsets
      reads this
    {
      Offsets(axOffset, ayOffset, azOffset, gxOffset, gyOffset, gzOffset)
    }

    function FilterState(): Vec3
      reads this
    {
      Vec3(filteredAx, filteredAy, filteredAz)
    }

    /** Program start. */
    constructor ()
      ensures Valid()
      ensures CurrentOffsets() == Offsets(0.0, 0.0, 0.0, 0.0, 0.0, 0.0)
      ensures alpha == InitialAlpha && FilterState() == Vec3(0.0, 0.0, 0.0) && useFiltering
    {
      axOffset, ayOffset, azOffset := 0.0, 0.0, 0.0;
      gxOffset, gyOffset, gzOffset := 0.0, 0.0, 0.0;
      alpha := InitialAlpha;
      filteredAx, filteredAy, filteredAz := 0.0, 0.0, 0.0;
      useFiltering := true;
    }

    /** `calibrateSensor` over the 500 readings it takes. Returns the number
        of accepted samples and whether the "may be inaccurate" warning of
        `debugSensorCalibration` is issued. */
    method CalibrateSensor(samples: seq<Sample>) returns (successfulReads: nat, warned: bool)
      requires |samples| == TotalSamples
      modifies this`axOffset, this`ayOffset, this`azOffset, this`gxOffset, this`gyOffset, this`gzOffset
      ensures successfulReads == AcceptedCount(samples) <= TotalSamples
      ensures warned == CalibrationWarning(TotalSamples, successfulReads)
      ensures CurrentOffsets() == CalibrationResult(samples, old(CurrentOffsets()))
    {
      var axSum, aySum, azSum := 0.0, 0.0, 0.0;
      var gxSum, gySum, gzSum := 0.0, 0.0, 0.0;
      successfulReads := 0;
      var i := 0;
      while i < TotalSamples
        invariant 0 <= successfulReads <= i <= TotalSamples
        invariant successfulReads == AcceptedCount(samples[..i])
        invariant axSum == AxisSum(samples[..i], AX) && aySum == AxisSum(samples[..i], AY)
        invariant azSum == AxisSum(samples[..i], AZ) && gxSum == AxisSum(samples[..i], GX)
        invariant gySum == AxisSum(samples[..i], GY) && gzSum == AxisSum(samples[..i], GZ)
      {
        assert samples[..i + 1][..i] == samples[..i];
        var s := samples[i];
        if !IsNaN(s.ax) && !IsNaN(s.ay) && !IsNaN(s.az)
           && !IsNaN(s.gx) && !IsNaN(s.gy) && !IsNaN(s.gz)
           && Abs(s.ax.value) < 10.0 && Abs(s.ay.value) < 10.0 && Abs(s.az.value) < 10.0
        {
          axSum := axSum + s.ax.value;
          aySum := aySum + s.ay.value;
          azSum := azSum + s.az.value;
          gxSum := gxSum + s.gx.value;
          gySum := gySum + s.gy.value;
          gzSum := gzSum + s.gz.value;
          successfulReads := successfulReads + 1;
        }
        i := i + 1;
      }
      assert samples[..i] == samples;
      warned := CalibrationWarning(TotalSamples, successfulReads);
      if successfulReads > 0 {
        var n := successfulReads as real;
        axOffset := axSum / n;
        ayOffset := aySum / n;
        azOffset := (azSum / n) - 1.0;
        gxOffset := gxSum / n;
        gyOffset := gySum / n;
        gzOffset := gzSum / n;
      }
    }

    /** The offset and filter part of `readPosition`, then `Estimate`.
        A not-a-number accelerometer channel fails before anything changes;
        otherwise the filter (when enabled) advances even if the estimate
        then fails. */
    method ReadPosition(ax: Float, ay: Float, az: Float, tilt: Vec3 -> Angles)
      returns (r: Option<Angles>)
      requires Valid()
      modifies this`filteredAx, this`filteredAy, this`filteredAz
      ensures ReadPositionOutcome(ax, ay, az, CurrentOffsets(), alpha, useFiltering,
                                  old(FilterState()), FilterState(), tilt, r)
      ensures !IsNaN(ax) && !IsNaN(ay) && !IsNaN(az) ==>
                ChannelsBetween(FilterState(), old(FilterState()),
                                Calibrated(ax.value, ay.value, az.value, CurrentOffsets()))
      ensures r.Some? ==> IsValidPosition(r.value.pitch, r.value.roll)
    {
      if IsNaN(ax) || IsNaN(ay) || IsNaN(az) {
        return None;
      }
      var cx := ax.value - axOffset;
      var cy := ay.value - ayOffset;
      var cz := az.value - azOffset;
      var finalAx, finalAy, finalAz;
      if useFiltering {
        FilterStepBetween(FilterState(), alpha, Vec3(cx, cy, cz));
        filteredAx := alpha * filteredAx + (1.0 - alpha) * cx;
        filteredAy := alpha * filteredAy + (1.0 - alpha) * cy;
        filteredAz := alpha * filteredAz + (1.0 - alpha) * cz;
        finalAx, finalAy, finalAz := filteredAx, filteredAy, filteredAz;
      } else {
        finalAx, finalAy, finalAz := cx, cy, cz;
      }
      var finalV := Vec3(finalAx, finalAy, finalAz);
      if finalAx * finalAx + finalAy * finalAy + finalAz * finalAz < MagnitudeThreshold * MagnitudeThreshold {
        return None;
      }
      var angles := tilt(finalV);
      if !IsValidPosition(angles.pitch, angles.roll) {
        return None;
      }
      r := Some(angles);
    }

    /** `setFiltering`. */
    method SetFiltering(enable: bool)
      modifies this`useFiltering
      ensures useFiltering == enable
    {
      useFiltering := enable;
    }

    /** `setFilterAlpha`: accepted iff in [0, 1] (a not-a-number is refused
        by both comparisons). */
    method SetFilterAlpha(newAlpha: Float)
      requires Valid()
      modifies this`alpha
      ensures Valid()
      ensures alpha == (if newAlpha.Finite? && 0.0 <= newAlpha.value <= 1.0 then newAlpha.value
                        else old(alpha))
    {
      if newAlpha.Finite? && newAlpha.value >= 0.0 && newAlpha.value <= 1.0 {
        alpha := newAlpha.value;
      }
    }

    /** `loadCalibration`: every load answers with its default of 0, so the
        offsets become zero. */
    method LoadCalibration()
      modifies this`axOffset, this`ayOffset, this`azOffset, this`gxOffset, this`gyOffset, this`gzOffset
      ensures CurrentOffsets() == Offsets(0.0, 0.0, 0.0, 0.0, 0.0, 0.0)
    {
      var v := LoadFloatPreference("cal_ax_offset", Finite(0.0));
      axOffset := v.value;
      v := LoadFloatPreference("cal_ay_offset", Finite(0.0));
      ayOffset := v.value;
      v := LoadFloatPreference("cal_az_offset", Finite(0.0));
      azOffset := v.value;
      v := LoadFloatPreference("cal_gx_offset", Finite(0.0));
      gxOffset := v.value;
      v := LoadFloatPreference("cal_gy_offset", Finite(0.0));
      gyOffset := v.value;
      v := LoadFloatPreference("cal_gz_offset", Finite(0.0));
      gzOffset := v.value;
    }
  }

  /** `hasStoredCalibration`: true iff none of the three accelerometer
      offsets reads back as the sentinel. Loads return their default, so
      the answer is always "no": start-up always recalibrates. */
  method HasStoredCalibration() returns (stored: bool)
    ensures !stored
  {
    var ax := LoadFloatPreference("cal_ax_offset", Finite(NoCalibration));
    stored := !FloatEq(ax, Finite(NoCalibration));
    if stored {
      var ay := LoadFloatPreference("cal_ay_offset", Finite(NoCalibration));
      stored := !FloatEq(ay, Finite(NoCalibration));
    }
    if stored {
      var az := LoadFloatPreference("cal_az_offset", Finite(NoCalibration));
      stored := !FloatEq(az, Finite(NoCalibration));
    }
  }
}
