/**
 * The ADC front end of class `C2M::ADC`: per-input smoothing of scan
 * samples, the calibration record, and the accessors that turn filter state
 * plus calibration into calibrated, raw and pitch-scaled readings.
 *
 * The class keeps its state in static arrays; here it is one immutable
 * `AdcState` record, and the private `update<channel>` becomes a function
 * returning the next state.
 */
module Adc {
  import opened CInts
  import opened AdcChannels

  /** `kAdcResolution`: bits of a useful code. */
  const AdcResolution: uint8 := 12
  /** `kAdcSmoothing`: the moving-average factor N. */
  const AdcSmoothing: uint32 := 4
  /** `kAdcSmoothBits`: fractional bits kept through the averaging. */
  const AdcSmoothBits: uint32 := 8
  /** `kAdcScanResolution`: bits delivered by one scan conversion. */
  const AdcScanResolution: uint8 := 16
  /** `kAdcScanAverages`: hardware averaging per conversion. */
  const AdcScanAverages: uint8 := 4
  /** `kAdcValueShift`: the accessors drop exactly the smoothing fraction. */
  const AdcValueShift: uint32 := AdcSmoothBits
  /** The fixed-point base of `pitch_cv_scale`: `>> 12` in the pitch accessors. */
  const PitchScaleBits: nat := 12

  /** The shifts of this module, as the powers of two they divide or multiply by. */
  const ScanDivisor: nat := 16      // >> (kAdcScanResolution - kAdcResolution)
  const FixedFactor: nat := 256     // << kAdcSmoothBits, >> kAdcValueShift
  const PitchDivisor: nat := 4096   // >> 12

  /** The largest 12-bit code, and that code with the smoothing fraction appended. */
  const MaxCode: int := 4095
  const MaxFixed: int := MaxCode * FixedFactor

  lemma ShiftConstants()
    ensures ScanDivisor == Pow2(AdcScanResolution - AdcResolution)
    ensures FixedFactor == Pow2(AdcSmoothBits) == Pow2(AdcValueShift)
    ensures PitchDivisor == Pow2(PitchScaleBits)
    ensures AdcSmoothing == Pow2(2)
    ensures MaxCode == Pow2(AdcResolution) - 1
  {
  }

  /**
   * The comment on `update` says the division by `kAdcSmoothing` should be a
   * shift: on a 32-bit unsigned value, dividing by 4 is shifting right by 2.
   */
  lemma SmoothingDivisionIsShift(b: bv32)
    ensures b / 4 == b >> 2
  {
  }

  /** One `uint32_t` slot per input, as the static arrays `raw_` and `smoothed_`. */
  type ChannelArray = a: seq<uint32> | |a| == ChannelLast
    witness [0, 0, 0, 0, 0, 0, 0, 0, 0, 0]

  /** One `uint16_t` offset per input. */
  type OffsetArray = a: seq<uint16> | |a| == ChannelLast
    witness [0, 0, 0, 0, 0, 0, 0, 0, 0, 0]

  /** `CalibrationData`: per-input zero points and the shared pitch scale. */
  datatype CalibrationData = CalibrationData(offset: OffsetArray, pitchCvScale: uint16)

  /** The filter state of all inputs plus the calibration record the class points to. */
  datatype AdcState = AdcState(raw: ChannelArray, smoothed: ChannelArray, calibration: CalibrationData)

  /** Every slot holds a 12-bit code with the fraction appended: what 16-bit samples can produce. */
  predicate InFilterRange(s: AdcState)
  {
    forall i :: 0 <= i < ChannelLast ==> s.raw[i] <= MaxFixed && s.smoothed[i] <= MaxFixed
  }

  /**
   * The state before the first scan: `raw_` and `smoothed_` have static
   * storage duration and so start out zero.
   */
  function ZeroState(calibration: CalibrationData): (s: AdcState)
    ensures s.calibration == calibration
    ensures InFilterRange(s)
    ensures forall ch :: RawValue(s, ch) == 0 && SmoothedRawValue(s, ch) == 0
  {
    var zeros := [0, 0, 0, 0, 0, 0, 0, 0, 0, 0];
    AdcState(zeros, zeros, calibration)
  }

  /**
   * The first line of `update`: `(value >> 4) << 8`, in `uint32_t`. For a
   * sample that fits the 16-bit scan resolution the result is the 12-bit
   * code with eight zero fraction bits.
   */
  function ScaledSample(v: uint32): (r: uint32)
    ensures v < 0x1000_0000 ==> r % FixedFactor == 0 && r / FixedFactor == v / ScanDivisor
    ensures v < TWO_16 ==> r <= MaxFixed
  {
    ToUint32((v / ScanDivisor) * FixedFactor)
  }

  /**
   * The moving-average step of `update`,
   * `(smoothed * (kAdcSmoothing - 1) + value) / kAdcSmoothing`, with the
   * product and the sum wrapping in `uint32_t`. When nothing wraps the new
   * value lies between the previous value and the sample (it never overshoots),
   * is strictly closer to a sample below it, and stays put on a match.
   */
  function SmoothStep(prev: uint32, sample: uint32): (r: uint32)
    ensures prev <= MaxFixed && sample <= MaxFixed ==> 3 * prev + sample < TWO_32
    ensures 3 * prev + sample < TWO_32 ==> 4 * r <= 3 * prev + sample < 4 * r + 4
    ensures 3 * prev + sample < TWO_32 && prev <= sample ==> prev <= r <= sample
    ensures 3 * prev + sample < TWO_32 && sample <= prev ==> sample <= r <= prev
    ensures 3 * prev + sample < TWO_32 && sample < prev ==> r < prev
    ensures 3 * prev + sample < TWO_32 && prev < sample ==> r < sample
    ensures prev == sample && 4 * prev < TWO_32 ==> r == prev
  {
    AddU32(MulU32(prev, AdcSmoothing - 1), sample) / AdcSmoothing
  }

  /**
   * `update<channel>(value)`: stores the scaled sample as the input's raw
   * value and advances its moving average toward it without overshooting.
   * Nothing but the two slots of that input changes.
   */
  function Update(s: AdcState, ch: AdcChannel, v: uint32): (r: AdcState)
    ensures r.calibration == s.calibration
    ensures forall i :: 0 <= i < ChannelLast && i != Index(ch) ==>
              r.raw[i] == s.raw[i] && r.smoothed[i] == s.smoothed[i]
    ensures v < TWO_16 ==> r.raw[Index(ch)] == v / ScanDivisor * FixedFactor
    ensures v < TWO_16 ==> RawValue(r, ch) == v / ScanDivisor <= MaxCode
    ensures InFilterRange(s) && v < TWO_16 ==> InFilterRange(r)
    ensures InFilterRange(s) && v < TWO_16 ==>
              4 * r.smoothed[Index(ch)] <= 3 * s.smoothed[Index(ch)] + r.raw[Index(ch)] < 4 * r.smoothed[Index(ch)] + 4
    ensures InFilterRange(s) && v < TWO_16 ==>
              var prev, sample, next := s.smoothed[Index(ch)], r.raw[Index(ch)], r.smoothed[Index(ch)];
              && (prev <= sample ==> prev <= next <= sample)
              && (sample <= prev ==> sample <= next <= prev)
  {
    var k := Index(ch);
    var sample := ScaledSample(v);
    AdcState(s.raw[k := sample], s.smoothed[k := SmoothStep(s.smoothed[k], sample)], s.calibration)
  }

  /** `raw_value(channel)`: the latest sample's 12-bit code, fraction dropped. */
  function RawValue(s: AdcState, ch: AdcChannel): (r: uint32)
    ensures r < 0x100_0000
    ensures r * FixedFactor <= s.raw[Index(ch)] < r * FixedFactor + FixedFactor
  {
    s.raw[Index(ch)] / FixedFactor
  }

  /** `smoothed_raw_value(channel)`: the moving average's integer part. */
  function SmoothedRawValue(s: AdcState, ch: AdcChannel): (r: uint32)
    ensures r < 0x100_0000
    ensures r * FixedFactor <= s.smoothed[Index(ch)] < r * FixedFactor + FixedFactor
  {
    s.smoothed[Index(ch)] / FixedFactor
  }

  /**
   * `value(channel)`: the offset minus the smoothed code. C++ evaluates the
   * `uint16_t - uint32_t` in `uint32_t` and converts to `int32_t`; the result
   * is nonetheless the mathematical difference.
   */
  function Value(s: AdcState, ch: AdcChannel): (r: int32)
    ensures r == s.calibration.offset[Index(ch)] - SmoothedRawValue(s, ch)
    ensures -0xFF_FFFF <= r < TWO_16
  {
    U16MinusU32AsI32(s.calibration.offset[Index(ch)], s.smoothed[Index(ch)] / FixedFactor)
  }

  /** `value<channel>()`: the template overload, with the input fixed at compile time. */
  function StaticValue(s: AdcState, ch: AdcChannel): (r: int32)
    ensures r == Value(s, ch)
  {
    var k := Index(ch);
    U16MinusU32AsI32(s.calibration.offset[k], s.smoothed[k] / FixedFactor)
  }

  /** `int32_t * uint16_t` stays within `int32_t`, so C++ leaves nothing undefined. */
  predicate ProductFits(a: int, b: int)
  {
    -TWO_31 <= a * b < TWO_31
  }

  /** `x >> 12` on an `int32_t`: the arithmetic shift rounds toward minus infinity. */
  function ShiftOutScale(x: int32): (r: int32)
    ensures r * PitchDivisor <= x < r * PitchDivisor + PitchDivisor
  {
    x / PitchDivisor
  }

  /**
   * `pitch_value(channel)`: the calibrated value times `pitch_cv_scale`,
   * shifted right by 12. When the product does not overflow this is the
   * floor of `value * scale / 4096`.
   */
  function PitchValue(s: AdcState, ch: AdcChannel): (r: int32)
    ensures ProductFits(Value(s, ch), s.calibration.pitchCvScale) ==>
              r * PitchDivisor <= Value(s, ch) * s.calibration.pitchCvScale < r * PitchDivisor + PitchDivisor
  {
    ShiftOutScale(MulI32(Value(s, ch), s.calibration.pitchCvScale))
  }

  /**
   * `raw_pitch_value(channel)`: the same transform applied to the unsmoothed
   * code, through a local `int32_t` holding `offset - raw_value(channel)`.
   */
  function RawPitchValue(s: AdcState, ch: AdcChannel): (r: int32)
    ensures var d := s.calibration.offset[Index(ch)] - RawValue(s, ch);
            ProductFits(d, s.calibration.pitchCvScale) ==>
              r * PitchDivisor <= d * s.calibration.pitchCvScale < r * PitchDivisor + PitchDivisor
  {
    var value := U16MinusU32AsI32(s.calibration.offset[Index(ch)], RawValue(s, ch));
    ShiftOutScale(MulI32(value, s.calibration.pitchCvScale))
  }

  /** The raw and smoothed pitch readings agree whenever the two codes do. */
  lemma PitchReadingsAgree(s: AdcState, ch: AdcChannel)
    requires RawValue(s, ch) == SmoothedRawValue(s, ch)
    ensures RawPitchValue(s, ch) == PitchValue(s, ch)
  {
  }

  /** Before any scan, `value` reads back the input's offset. */
  lemma ZeroStateValue(calibration: CalibrationData, ch: AdcChannel)
    ensures Value(ZeroState(calibration), ch) == calibration.offset[Index(ch)]
    ensures StaticValue(ZeroState(calibration), ch) == calibration.offset[Index(ch)]
  {
  }

  /**
   * With the filter in range and an offset that fits 15 bits, neither pitch
   * accessor can overflow `int32_t`, whatever the scale.
   */
  lemma PitchProductsFit(s: AdcState, ch: AdcChannel)
    requires InFilterRange(s)
    requires s.calibration.offset[Index(ch)] < TWO_15
    ensures ProductFits(Value(s, ch), s.calibration.pitchCvScale)
    ensures ProductFits(s.calibration.offset[Index(ch)] - RawValue(s, ch), s.calibration.pitchCvScale)
  {
    var k := Index(ch);
    var scale := s.calibration.pitchCvScale;
    assert SmoothedRawValue(s, ch) <= MaxCode;
    assert RawValue(s, ch) <= MaxCode;
    BoundedProduct(Value(s, ch), scale);
    BoundedProduct(s.calibration.offset[k] - RawValue(s, ch), scale);
  }

  lemma BoundedProduct(a: int, b: int)
    requires -MaxCode <= a < TWO_15
    requires 0 <= b < TWO_16
    ensures ProductFits(a, b)
  {
    if a >= 0 {
      MulMonotone(a, 0x7FFF, b);
      MulMonotone(b, 0xFFFF, 0x7FFF);
    } else {
      MulMonotone(-a, 4095, b);
      MulMonotone(b, 0xFFFF, 4095);
    }
  }

  lemma MulMonotone(x: int, y: int, z: int)
    requires 0 <= x <= y && 0 <= z
    ensures x * z <= y * z
  {
    assert y * z - x * z == (y - x) * z;
  }

  /**
   * Full-range calibration values do overflow: offset 65535, an empty
   * filter and scale 65535 make `value * scale` exceed `int32_t`, and the
   * wrapped product turns a large positive pitch into -32.
   */
  lemma PitchProductOverflows()
    ensures var cal := CalibrationData(seq(ChannelLast, _ => 0xFFFF), 0xFFFF);
            && !ProductFits(Value(ZeroState(cal), Ch1_1), 0xFFFF)
            && PitchValue(ZeroState(cal), Ch1_1) == -32
  {
    var cal := CalibrationData(seq(ChannelLast, _ => 0xFFFF), 0xFFFF);
    assert Value(ZeroState(cal), Ch1_1) == 0xFFFF;
  }

  /** `n` consecutive scans that deliver the same sample `v` to input `ch`. */
  function Settle(s: AdcState, ch: AdcChannel, v: uint32, n: nat): (r: AdcState)
    ensures r.calibration == s.calibration
    ensures forall i :: 0 <= i < ChannelLast && i != Index(ch) ==>
              r.raw[i] == s.raw[i] && r.smoothed[i] == s.smoothed[i]
    ensures InFilterRange(s) && v < TWO_16 ==> InFilterRange(r)
    ensures n > 0 ==> r.raw[Index(ch)] == ScaledSample(v)
    decreases n
  {
    if n == 0 then s else Settle(Update(s, ch, v), ch, v, n - 1)
  }

  /**
   * Approached from above, the average reaches the sample exactly: after as
   * many scans as the initial distance it equals the scaled sample, so the
   * smoothed reading equals the raw one. The scan count is a loose bound:
   * each scan removes about a quarter of the gap, not just one unit.
   */
  lemma {:induction false} SettleFromAbove(s: AdcState, ch: AdcChannel, v: uint32, n: nat)
    requires InFilterRange(s) && v < TWO_16
    requires ScaledSample(v) <= s.smoothed[Index(ch)] <= ScaledSample(v) + n
    ensures Settle(s, ch, v, n).smoothed[Index(ch)] == ScaledSample(v)
    ensures SmoothedRawValue(Settle(s, ch, v, n), ch) == v / ScanDivisor
    decreases n
  {
    if n > 0 {
      SettleFromAbove(Update(s, ch, v), ch, v, n - 1);
    }
  }

  /**
   * Approached from below, the truncating division never lets the average
   * reach the sample: it stays strictly below, so the smoothed reading
   * stays below the sample's code.
   */
  lemma {:induction false} SettleFromBelow(s: AdcState, ch: AdcChannel, v: uint32, n: nat)
    requires InFilterRange(s) && v < TWO_16
    requires s.smoothed[Index(ch)] < ScaledSample(v)
    ensures Settle(s, ch, v, n).smoothed[Index(ch)] < ScaledSample(v)
    ensures SmoothedRawValue(Settle(s, ch, v, n), ch) < v / ScanDivisor
    decreases n
  {
    if n > 0 {
      SettleFromBelow(Update(s, ch, v), ch, v, n - 1);
    }
  }

  /**
   * From below, every scan closes a gap of four or more by at least one, and
   * a gap of three or less stays at most three. The scan count is a loose
   * bound: a large gap shrinks by about a quarter per scan.
   */
  lemma {:induction false} SettleWithinThree(s: AdcState, ch: AdcChannel, v: uint32, n: nat)
    requires InFilterRange(s) && v < TWO_16
    requires s.smoothed[Index(ch)] <= ScaledSample(v) <= s.smoothed[Index(ch)] + n + 3
    ensures ScaledSample(v) <= Settle(s, ch, v, n).smoothed[Index(ch)] + 3
    ensures Settle(s, ch, v, n).smoothed[Index(ch)] <= ScaledSample(v)
    decreases n
  {
    if n > 0 {
      SettleWithinThree(Update(s, ch, v), ch, v, n - 1);
    }
  }

  /**
   * A constant input with a non-zero code, fed from the power-up state,
   * leaves `smoothed_raw_value` one below `raw_value` for good: once the
   * scans outnumber the scaled sample, the smoothed code is `code - 1`.
   * That scan count is a loose bound, far above what the filter needs.
   */
  lemma SteadyRisingInputReadsOneLow(calibration: CalibrationData, ch: AdcChannel, v: uint32, n: nat)
    requires ScanDivisor <= v < TWO_16
    requires n >= ScaledSample(v)
    ensures RawValue(Settle(ZeroState(calibration), ch, v, n), ch) == v / ScanDivisor
    ensures SmoothedRawValue(Settle(ZeroState(calibration), ch, v, n), ch) == v / ScanDivisor - 1
  {
    var s := ZeroState(calibration);
    SettleFromBelow(s, ch, v, n);
    SettleWithinThree(s, ch, v, n);
  }
}
