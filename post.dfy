/**
 * The effect parameters of a wave and the fixed, gated pipeline of
 * Wave::updatePost (src/wave.cpp) that turns `samples` into `postSamples`.
 *
 * Each stage has a specification function on buffers (`...Step`, which
 * includes the stage's gate) and a method that performs the stage in place
 * on the local `out` array, as the source does. `PostOut` is the whole
 * pipeline. The spectral stages whose code is trigonometric (harmonic
 * shift/stretch/fold, comb, the four feedback modulations) are opaque
 * library transforms applied with the source's gates and arguments.
 */
module PostProcess {
  import opened Kernels

  // EffectID, in declaration order.
  const PHASE_MODULATION: nat := 0
  const FREQUENCY_MODULATION: nat := 1
  const RING_MODULATION: nat := 2
  const AMPLITUDE_MODULATION: nat := 3
  const PRE_GAIN: nat := 4
  const PHASE_SHIFT: nat := 5
  const HARMONIC_SHIFT: nat := 6
  const HARMONIC_ASYMETRY: nat := 7
  const HARMONIC_BALANCE: nat := 8
  const HARMONIC_STRETCH: nat := 9
  const HARMONIC_FOLD: nat := 10
  const PHASE_DISTORTION: nat := 11
  const CUBIC_DISTORTION: nat := 12
  const COMB: nat := 13
  const CHEBYSHEV: nat := 14
  const SAMPLE_AND_HOLD: nat := 15
  const TRACK_AND_HOLD: nat := 16
  const QUANTIZATION: nat := 17
  const SLEW: nat := 18
  const LOWPASS: nat := 19
  const HIGHPASS: nat := 20
  const PHASE_FEEDBACK: nat := 21
  const FREQUENCY_FEEDBACK: nat := 22
  const RING_FEEDBACK: nat := 23
  const AMPLITUDE_FEEDBACK: nat := 24
  const MODULATION_INDEX: nat := 25
  const LOW_BOOST: nat := 26
  const MID_BOOST: nat := 27
  const HIGH_BOOST: nat := 28
  const POST_GAIN: nat := 29
  const EFFECTS_LEN: nat := 30

  /** The `effects` array of a wave. */
  type Effects = s: seq<real> | |s| == EFFECTS_LEN witness seq(30, _ => 0.0)

  function NoEffects(): (e: Effects)
    ensures forall i :: 0 <= i < EFFECTS_LEN ==> e[i] == 0.0
  {
    seq(EFFECTS_LEN, _ => 0.0)
  }

  /**
   * The one parameter condition updatePost asks for: the phase-distortion
   * stage cross-fades by CUBIC_DISTORTION without clamping it, and the model
   * takes it in [0, 1], the range the sliders, morphing and clearEffects keep.
   * The reads stay in bounds for every value in [-1/2, 4)
   * (FinalPhaseBelowFour) and go past the end at 4
   * (DistortionReadsPastEndAtFour).
   */
  predicate PostDefined(e: Effects)
  {
    (e[PHASE_DISTORTION] > 0.0 || e[CUBIC_DISTORTION] > 0.0) ==> 0.0 <= e[CUBIC_DISTORTION] <= 1.0
  }

  /** A buffer whose samples all lie in [lo, hi]. */
  ghost predicate InRange(s: seq<real>, lo: real, hi: real)
  {
    forall i :: 0 <= i < |s| ==> lo <= s[i] <= hi
  }

  /** The time-domain buffer with sample 0 repeated at the end, as the `tmp[WAVE_LEN + 1]` copies hold it. */
  function Wrapped(s: Buffer): (t: seq<real>)
    ensures |t| == WAVE_LEN + 1 && t[WAVE_LEN] == s[0]
    ensures forall i :: 0 <= i < WAVE_LEN ==> t[i] == s[i]
  {
    s + [s[0]]
  }

  // ---------------------------------------------------------------------
  // Pre- and post-gain (src/wave.cpp:48-61, 337-350)

  /** The cubic soft clipper: hard limit at +-2/3 from |x| >= 1, x - x^3/3 inside. */
  function SoftClip(x: real): (y: real)
    ensures -2.0 / 3.0 <= y <= 2.0 / 3.0
  {
    var y := if x >= 1.0 || x <= -1.0 then Clampf(x, -2.0 / 3.0, 2.0 / 3.0) else x * (1.0 - x * x / 3.0);
    SoftClipBounds(x, y);
    y
  }

  lemma SoftClipBounds(x: real, y: real)
    requires y == if x >= 1.0 || x <= -1.0 then Clampf(x, -2.0 / 3.0, 2.0 / 3.0) else x * (1.0 - x * x / 3.0)
    ensures -2.0 / 3.0 <= y <= 2.0 / 3.0
  {
    if -1.0 < x < 1.0 {
      var a := (x - 1.0) * (x - 1.0);
      var b := (x + 1.0) * (x + 1.0);
      SquareNonneg(x - 1.0);
      SquareNonneg(x + 1.0);
      MulNonneg(a, x + 2.0);
      MulNonneg(b, 2.0 - x);
      assert 2.0 / 3.0 - y == a * (x + 2.0) / 3.0;
      assert y + 2.0 / 3.0 == b * (2.0 - x) / 3.0;
    }
  }

  /** Gain by 20^g into the soft clipper, cross-faded with the dry signal by g. */
  function GainStage(lib: Lib, s: Buffer, g: real): Buffer
  {
    var gain := lib.pow(20.0, g);
    seq(WAVE_LEN, i requires 0 <= i < WAVE_LEN => GainSample(s[i], gain, g))
  }

  function GainSample(x: real, gain: real, g: real): real
  {
    Crossf(x, SoftClip(x * gain) * 1.5, g)
  }

  /** For g in [0, 1] the gain stage keeps a signal in [-1, 1] inside it; at g = 1 any signal ends there. */
  lemma GainStageBounded(lib: Lib, s: Buffer, g: real)
    requires 0.0 <= g <= 1.0
    ensures InRange(s, -1.0, 1.0) ==> InRange(GainStage(lib, s, g), -1.0, 1.0)
    ensures g == 1.0 ==> InRange(GainStage(lib, s, g), -1.0, 1.0)
  {
  }

  function PreGainStep(lib: Lib, e: Effects, s: Buffer): Buffer
  {
    if e[PRE_GAIN] != 0.0 then GainStage(lib, s, e[PRE_GAIN]) else s
  }

  function PostGainStep(lib: Lib, e: Effects, s: Buffer): Buffer
  {
    if e[POST_GAIN] != 0.0 then GainStage(lib, s, e[POST_GAIN]) else s
  }

  // ---------------------------------------------------------------------
  // Harmonic block and comb filter (src/wave.cpp:63-142, 171-197): opaque

  predicate HarmonicGate(e: Effects)
  {
    e[HARMONIC_STRETCH] > 0.0 || e[PHASE_SHIFT] > 0.0 || e[HARMONIC_ASYMETRY] > 0.0 ||
    e[HARMONIC_BALANCE] > 0.0 || e[HARMONIC_SHIFT] > 0.0 || e[HARMONIC_FOLD] > 0.0
  }

  function HarmonicStep(lib: Lib, e: Effects, s: Buffer): Buffer
  {
    if HarmonicGate(e) then lib.harmonicStage(s, e) else s
  }

  function CombStep(lib: Lib, e: Effects, s: Buffer): Buffer
  {
    if e[COMB] > 0.0 then lib.combStage(s, e[COMB]) else s
  }

  // ---------------------------------------------------------------------
  // Phase and cubic distortion (src/wave.cpp:144-169)

  /** The piecewise-linear phase warp moving the midpoint 0.5 to `mid`. */
  function DstPhase(i: nat, mid: real): (d: real)
    requires i < WAVE_LEN && 0.5 <= mid <= 1.0
    ensures 0.0 <= d < 1.0
  {
    var phase := i as real / WAVE_LEN as real;
    if phase < mid then
      var d := Rescalef(phase, 0.0, mid, 0.0, 0.5);
      RescalefBounds(phase, 0.0, mid, 0.0, 0.5);
      d
    else
      var d := Rescalef(phase, mid, 1.0, 0.5, 1.0);
      RescalefBounds(phase, mid, 1.0, 0.5, 1.0);
      d
  }

  lemma CubeBounds(c: real)
    requires -1.0 <= c < 1.0
    ensures -1.0 <= c * c * c < 1.0
  {
    var p := c * c - c + 1.0;
    var q := c * c + c + 1.0;
    SquareNonneg(c - 0.5);
    SquareNonneg(c + 0.5);
    assert p == (c - 0.5) * (c - 0.5) + 0.75;
    assert q == (c + 0.5) * (c + 0.5) + 0.75;
    MulNonneg(c + 1.0, p);
    MulPos(1.0 - c, q);
    assert c * c * c + 1.0 == (c + 1.0) * p;
    assert 1.0 - c * c * c == (1.0 - c) * q;
  }

  /** The read position of output sample i, as a fraction of the period. */
  function FinalPhase(i: nat, pd: real, cd: real): (fp: real)
    requires i < WAVE_LEN
    ensures 0.0 <= cd <= 1.0 ==> 0.0 <= fp < 1.0
  {
    var mid := 0.5 + Clampf(pd, 0.0, 1.0) / 2.0;
    var d := DstPhase(i, mid);
    var c0 := Rescalef(d, 0.0, 1.0, -1.0, 1.0);
    RescalefBounds(d, 0.0, 1.0, -1.0, 1.0);
    var c := c0 * c0 * c0;
    CubeBounds(c0);
    var r := Rescalef(c, -1.0, 1.0, 0.0, 1.0);
    RescalefBounds(c, -1.0, 1.0, 0.0, 1.0);
    Crossf(d, r, cd)
  }

  /**
   * The bound of FinalPhase holds for every CUBIC_DISTORTION cd in [-1/2, 4).
   * With e = 2 * dst_phase - 1 in [-1, 1), twice the final phase is
   * (e + 1) * (1 + cd * e * (e - 1)) and twice its distance to 1 is
   * (1 - e) * (1 + cd * e * (e + 1)).
   */
  lemma FinalPhaseBelowFour(i: nat, pd: real, cd: real)
    requires i < WAVE_LEN && -0.5 <= cd < 4.0
    ensures 0.0 <= FinalPhase(i, pd, cd) < 1.0
  {
    var mid := 0.5 + Clampf(pd, 0.0, 1.0) / 2.0;
    var d := DstPhase(i, mid);
    var c0 := Rescalef(d, 0.0, 1.0, -1.0, 1.0);
    var c := c0 * c0 * c0;
    var r := Rescalef(c, -1.0, 1.0, 0.0, 1.0);
    assert FinalPhase(i, pd, cd) == Crossf(d, r, cd);
    assert c0 == 2.0 * d - 1.0;
    assert r == (c + 1.0) / 2.0;
    CubicCrossBounds(c0, cd);
  }

  /** The cubic cross-fade (1 - cd) * (e + 1) / 2 + cd * (e^3 + 1) / 2 stays in [0, 1). */
  lemma CubicCrossBounds(e: real, cd: real)
    requires -1.0 <= e < 1.0 && -0.5 <= cd < 4.0
    ensures 0.0 <= Crossf((e + 1.0) / 2.0, (e * e * e + 1.0) / 2.0, cd) < 1.0
  {
    var fp := Crossf((e + 1.0) / 2.0, (e * e * e + 1.0) / 2.0, cd);
    var a, b := e * (e - 1.0), e * (e + 1.0);
    assert 2.0 * fp == (e + 1.0) * (1.0 + cd * a);
    assert 2.0 * (1.0 - fp) == (1.0 - e) * (1.0 + cd * b);
    CubicFactorBounds(e, cd);
    ProductNonneg(e + 1.0, 1.0 + cd * a, 2.0 * fp);
    ProductPos(1.0 - e, 1.0 + cd * b, 2.0 * (1.0 - fp));
  }

  /** For e in [-1, 1), e * (e - 1) and e * (e + 1) lie in [-1/4, 2], so both factors stay non-negative. */
  lemma CubicFactorBounds(e: real, cd: real)
    requires -1.0 <= e < 1.0 && -0.5 <= cd < 4.0
    ensures 0.0 <= 1.0 + cd * (e * (e - 1.0)) && 0.0 < 1.0 + cd * (e * (e + 1.0))
  {
    var a, b := e * (e - 1.0), e * (e + 1.0);
    SquareNonneg(e - 0.5);
    SquareNonneg(e + 0.5);
    assert a + 0.25 == (e - 0.5) * (e - 0.5) && b + 0.25 == (e + 0.5) * (e + 0.5);
    ProductNonneg(2.0 - e, e + 1.0, 2.0 - a);
    ProductPos(e + 2.0, 1.0 - e, 2.0 - b);
    if 0.0 < cd {
      ProductNonneg(a + 0.25, cd, cd * a + 0.25 * cd);
      ProductNonneg(b + 0.25, cd, cd * b + 0.25 * cd);
    } else if cd < 0.0 {
      ProductNonneg(2.0 - a, -cd, -2.0 * cd + cd * a);
      ProductPos(2.0 - b, -cd, -2.0 * cd + cd * b);
    }
  }

  /**
   * At CUBIC_DISTORTION 4, output sample 64 (no phase distortion) has final
   * phase exactly 1, so `dst_idx` is WAVE_LEN and `tmp[dst_idx + 1]` lies past
   * the end of the WAVE_LEN + 1 copy.
   */
  lemma DistortionReadsPastEndAtFour()
    ensures FinalPhase(64, 0.0, 4.0) == 1.0
    ensures Trunc(FinalPhase(64, 0.0, 4.0) * WAVE_LEN as real) + 1 == WAVE_LEN + 1
  {
    assert DstPhase(64, 0.5) == 0.25;
  }

  /** One output sample: linear interpolation of the wrapped buffer at the final phase. */
  function DistortedSample(t: seq<real>, i: nat, pd: real, cd: real): real
    requires |t| == WAVE_LEN + 1 && i < WAVE_LEN && 0.0 <= cd <= 1.0
  {
    var fp := FinalPhase(i, pd, cd);
    var idx := Trunc(fp * WAVE_LEN as real);
    var delta := (fp - idx as real / WAVE_LEN as real) * WAVE_LEN as real;
    Crossf(t[idx], t[idx + 1], delta)
  }

  /**
   * The interpolation reads t[idx] and t[idx + 1] with idx in [0, WAVE_LEN - 1]
   * and a weight in [0, 1), so the result lies between two neighbouring samples.
   */
  lemma DistortedSampleReads(t: seq<real>, i: nat, pd: real, cd: real)
    requires |t| == WAVE_LEN + 1 && i < WAVE_LEN && 0.0 <= cd <= 1.0
    ensures var idx := Trunc(FinalPhase(i, pd, cd) * WAVE_LEN as real);
            0 <= idx < WAVE_LEN &&
            (t[idx] <= t[idx + 1] ==> t[idx] <= DistortedSample(t, i, pd, cd) <= t[idx + 1]) &&
            (t[idx + 1] <= t[idx] ==> t[idx + 1] <= DistortedSample(t, i, pd, cd) <= t[idx])
  {
    var fp := FinalPhase(i, pd, cd);
    var idx := Trunc(fp * WAVE_LEN as real);
    assert fp * WAVE_LEN as real - idx as real == (fp - idx as real / WAVE_LEN as real) * WAVE_LEN as real;
  }

  function PhaseDistortionStage(s: Buffer, pd: real, cd: real): Buffer
    requires 0.0 <= cd <= 1.0
  {
    var t := Wrapped(s);
    seq(WAVE_LEN, i requires 0 <= i < WAVE_LEN => DistortedSample(t, i, pd, cd))
  }

  /** Phase distortion only re-reads the wave: it never leaves the range of its input. */
  lemma PhaseDistortionInRange(s: Buffer, pd: real, cd: real, lo: real, hi: real)
    requires 0.0 <= cd <= 1.0 && InRange(s, lo, hi)
    ensures InRange(PhaseDistortionStage(s, pd, cd), lo, hi)
  {
    var t := Wrapped(s);
    forall i | 0 <= i < WAVE_LEN
      ensures lo <= PhaseDistortionStage(s, pd, cd)[i] <= hi
    {
      DistortedSampleReads(t, i, pd, cd);
    }
  }

  function DistortionStep(e: Effects, s: Buffer): Buffer
    requires PostDefined(e)
  {
    if e[PHASE_DISTORTION] > 0.0 || e[CUBIC_DISTORTION] > 0.0 then
      PhaseDistortionStage(s, e[PHASE_DISTORTION], e[CUBIC_DISTORTION])
    else s
  }

  // ---------------------------------------------------------------------
  // Chebyshev waveshaping (src/wave.cpp:199-209)

  /** The argument given to asinf: the sample, or its reciprocal when outside [-1, 1]. */
  function ChebyshevArgument(x: real): (a: real)
    ensures -1.0 <= a <= 1.0
    ensures -1.0 <= x <= 1.0 ==> a == x
  {
    if -1.0 <= x && x <= 1.0 then x
    else
      var a := 1.0 / x;
      ReciprocalInUnit(x);
      a
  }

  /** A value outside [-1, 1] has its reciprocal inside. */
  lemma ReciprocalInUnit(x: real)
    requires x < -1.0 || 1.0 < x
    ensures -1.0 <= 1.0 / x <= 1.0
  {
    if x > 1.0 {
      FractionBounds(1.0, x);
    } else {
      FractionBounds(1.0, -x);
      assert 1.0 / x == -(1.0 / -x);
    }
  }

  function ChebyshevStage(lib: Lib, s: Buffer, c: real): Buffer
  {
    var n := lib.pow(50.0, c);
    seq(WAVE_LEN, i requires 0 <= i < WAVE_LEN => ChebyshevSample(lib, n, s[i]))
  }

  function ChebyshevSample(lib: Lib, n: real, x: real): real
  {
    lib.sin(n * lib.asin(ChebyshevArgument(x)))
  }

  function ChebyshevStep(lib: Lib, e: Effects, s: Buffer): Buffer
  {
    if e[CHEBYSHEV] > 0.0 then ChebyshevStage(lib, s, e[CHEBYSHEV]) else s
  }

  // ---------------------------------------------------------------------
  // Sample & hold, track & hold (src/wave.cpp:211-239)

  /** powf(WAVE_LEN / 2.0, clampf(x, 0, 1)): the hold length in samples. */
  function Frameskip(lib: Lib, x: real): (fs: real)
    requires lib.Valid()
    ensures fs > 0.0
  {
    lib.pow(WAVE_LEN as real / 2.0, Clampf(x, 0.0, 1.0))
  }

  /** roundf(i / frameskip) * frameskip, before clamping. */
  function HoldPoint(i: nat, fs: real): real
    requires fs > 0.0
  {
    Roundf(i as real / fs) as real * fs
  }

  /** The clamped index linterpf receives; it is always a safe read of the wrapped buffer. */
  function HoldIndex(i: nat, fs: real): (x: real)
    requires fs > 0.0
    ensures 0.0 <= x <= (WAVE_LEN - 1) as real
    ensures LinterpSafe(WAVE_LEN + 1, x)
  {
    Clampf(HoldPoint(i, fs), 0.0, (WAVE_LEN - 1) as real)
  }

  function SampleHoldStage(lib: Lib, s: Buffer, x: real): Buffer
    requires lib.Valid()
  {
    var fs := Frameskip(lib, x);
    var t := Wrapped(s);
    seq(WAVE_LEN, i requires 0 <= i < WAVE_LEN => Linterpf(t, HoldIndex(i, fs)))
  }

  function TrackHoldStage(lib: Lib, s: Buffer, x: real): Buffer
    requires lib.Valid()
  {
    var fs := Frameskip(lib, x);
    var t := Wrapped(s);
    seq(WAVE_LEN, i requires 0 <= i < WAVE_LEN =>
      if i as real >= HoldPoint(i, fs) then Linterpf(t, HoldIndex(i, fs)) else s[i])
  }

  /** Linear interpolation of the wrapped buffer at a hold index stays within the buffer's range. */
  lemma HoldReadInRange(s: Buffer, x: real, lo: real, hi: real)
    requires InRange(s, lo, hi) && 0.0 <= x <= (WAVE_LEN - 1) as real && LinterpSafe(WAVE_LEN + 1, x)
    ensures lo <= Linterpf(Wrapped(s), x) <= hi
  {
    var t := Wrapped(s);
    var k := Trunc(x);
    assert lo <= t[k] <= hi;
    if x != k as real {
      assert lo <= t[k + 1] <= hi;
    }
  }

  /** Both hold stages only re-read the wave: they never leave the range of their input. */
  lemma HoldStagesInRange(lib: Lib, s: Buffer, x: real, lo: real, hi: real)
    requires lib.Valid() && InRange(s, lo, hi)
    ensures InRange(SampleHoldStage(lib, s, x), lo, hi)
    ensures InRange(TrackHoldStage(lib, s, x), lo, hi)
  {
    var fs := Frameskip(lib, x);
    forall i | 0 <= i < WAVE_LEN
      ensures lo <= SampleHoldStage(lib, s, x)[i] <= hi
      ensures lo <= TrackHoldStage(lib, s, x)[i] <= hi
    {
      HoldReadInRange(s, HoldIndex(i, fs), lo, hi);
    }
  }

  function SampleHoldStep(lib: Lib, e: Effects, s: Buffer): Buffer
    requires lib.Valid()
  {
    if e[SAMPLE_AND_HOLD] > 0.0 then SampleHoldStage(lib, s, e[SAMPLE_AND_HOLD]) else s
  }

  function TrackHoldStep(lib: Lib, e: Effects, s: Buffer): Buffer
    requires lib.Valid()
  {
    if e[TRACK_AND_HOLD] > 0.0 then TrackHoldStage(lib, s, e[TRACK_AND_HOLD]) else s
  }

  // ---------------------------------------------------------------------
  // Quantization (src/wave.cpp:241-247)

  /** powf(clampf(q, 0, 1), -1.5): the number of levels per unit. */
  function Levels(lib: Lib, q: real): (l: real)
    requires lib.Valid() && q > 0.001
    ensures l >= 1.0
  {
    lib.pow(Clampf(q, 0.0, 1.0), -1.5)
  }

  function Quantized(x: real, levels: real): real
    requires levels > 0.0
  {
    Roundf(x * levels) as real / levels
  }

  function QuantizeStage(s: Buffer, levels: real): Buffer
    requires levels > 0.0
  {
    seq(WAVE_LEN, i requires 0 <= i < WAVE_LEN => Quantized(s[i], levels))
  }

  /** Rounding to the grid moves a sample by at most half a step, and so by at most 1/2. */
  lemma QuantizedError(x: real, levels: real)
    requires levels >= 1.0
    ensures -0.5 <= (Quantized(x, levels) - x) * levels <= 0.5
    ensures -0.5 <= Quantized(x, levels) - x <= 0.5
  {
    var y := x * levels;
    var n := Roundf(y) as real;
    var q := Quantized(x, levels);
    assert q * levels == n;
    assert (q - x) * levels == n - y;
    var d := q - x;
    if d > 0.5 {
      MulLe(1.0, levels, d);
    }
    if d < -0.5 {
      assert (-d) * levels == -(d * levels);
      MulLe(1.0, levels, -d);
    }
  }

  /** Quantizing an already quantized sample changes nothing. */
  lemma QuantizedIdempotent(x: real, levels: real)
    requires levels > 0.0
    ensures Quantized(Quantized(x, levels), levels) == Quantized(x, levels)
  {
    var n := Roundf(x * levels);
    var q := Quantized(x, levels);
    DivMulCancel(n as real, levels);
    QuantizedGridPoint(q, n, levels);
  }

  /** A point of the grid, q * levels an integer, is quantized to itself. */
  lemma QuantizedGridPoint(q: real, n: int, levels: real)
    requires levels > 0.0 && q * levels == n as real
    ensures Quantized(q, levels) == q
  {
    RoundfInteger(n);
    MulDivCancel(q, levels);
  }

  function QuantizeStep(lib: Lib, e: Effects, s: Buffer): Buffer
    requires lib.Valid()
  {
    if e[QUANTIZATION] > 0.001 then QuantizeStage(s, Levels(lib, e[QUANTIZATION])) else s
  }

  // ---------------------------------------------------------------------
  // Slew limiter (src/wave.cpp:249-260)

  /** The step into sample i is at most `slew` in size. */
  predicate StepWithin(s: seq<real>, i: int, slew: real)
    requires 1 <= i < |s|
  {
    -slew <= s[i] - s[i - 1] <= slew
  }

  /** The slew-limited signal: each step follows the input by at most `slew`. */
  function Slewed(s: seq<real>, slew: real): (r: seq<real>)
    requires |s| > 0
    ensures |r| == |s| && r[0] == s[0]
    ensures slew >= 0.0 ==> forall i :: 1 <= i < |r| ==> StepWithin(r, i, slew)
    decreases |s|
  {
    if |s| == 1 then s
    else
      var p := Slewed(s[..|s| - 1], slew);
      var y := p[|p| - 1];
      var x := y + Clampf(s[|s| - 1] - y, -slew, slew);
      if slew >= 0.0 then
        AppendStep(p, x, slew);
        p + [x]
      else p + [x]
  }

  lemma AppendStep(p: seq<real>, x: real, slew: real)
    requires |p| > 0 && forall i :: 1 <= i < |p| ==> StepWithin(p, i, slew)
    requires -slew <= x - p[|p| - 1] <= slew
    ensures forall i :: 1 <= i < |p| + 1 ==> StepWithin(p + [x], i, slew)
  {
    forall i | 1 <= i < |p| + 1
      ensures StepWithin(p + [x], i, slew)
    {
      if i < |p| {
        assert StepWithin(p, i, slew);
      }
    }
  }

  /** A signal whose steps are already within the slew rate passes unchanged. */
  lemma {:induction false} SlewedTransparent(s: seq<real>, slew: real)
    requires |s| > 0
    requires forall i :: 1 <= i < |s| ==> StepWithin(s, i, slew)
    ensures Slewed(s, slew) == s
    decreases |s|
  {
    if |s| > 1 {
      var n := |s|;
      var pre := s[..n - 1];
      forall i | 1 <= i < |pre|
        ensures StepWithin(pre, i, slew)
      {
        assert StepWithin(s, i, slew);
      }
      SlewedTransparent(pre, slew);
      var p := Slewed(pre, slew);
      var y := p[|p| - 1];
      assert y == s[n - 2];
      assert StepWithin(s, n - 1, slew);
      assert Clampf(s[n - 1] - y, -slew, slew) == s[n - 1] - y;
      assert Slewed(s, slew) == p + [y + Clampf(s[n - 1] - y, -slew, slew)];
      assert s == pre + [s[n - 1]];
    }
  }

  function SlewStep(lib: Lib, e: Effects, s: Buffer): Buffer
  {
    if e[SLEW] > 0.0 then Slewed(s, lib.pow(0.001, e[SLEW])) else s
  }

  // ---------------------------------------------------------------------
  // Brick-wall filter (src/wave.cpp:262-275)

  /** The gain of harmonic bin i. */
  function BrickwallGain(i: int, lowpass: real, highpass: real): (v: real)
    ensures 0.0 <= v <= 1.0
    ensures (WAVE_LEN / 2) as real * lowpass <= i as real ==> v == 0.0
    ensures i as real <= (WAVE_LEN / 2) as real * highpass ==> v == 0.0
  {
    var a := Clampf((WAVE_LEN / 2) as real * lowpass - i as real, 0.0, 1.0);
    var b := Clampf(-(WAVE_LEN / 2) as real * highpass + i as real, 0.0, 1.0);
    MulUnit(a, b);
    a * b
  }

  /** Both halves, real and imaginary, of bin k of an interleaved spectrum scaled by gain[k]. */
  function ScaleBins(fft: Buffer, gain: seq<real>): Buffer
    requires |gain| == WAVE_LEN / 2
  {
    seq(WAVE_LEN, j requires 0 <= j < WAVE_LEN => fft[j] * gain[j / 2])
  }

  /** The filter's gain per bin; bin 0 (DC) is left alone. */
  function BrickwallGains(lowpass: real, highpass: real): (g: seq<real>)
    ensures |g| == WAVE_LEN / 2
  {
    seq(WAVE_LEN / 2, k requires 0 <= k < WAVE_LEN / 2 => if k >= 1 then BrickwallGain(k, lowpass, highpass) else 1.0)
  }

  function BrickwallSpectrum(fft: Buffer, lowpass: real, highpass: real): Buffer
  {
    ScaleBins(fft, BrickwallGains(lowpass, highpass))
  }

  /**
   * The filter keeps DC, never amplifies a bin, and silences every bin at or
   * above lowpass * WAVE_LEN/2 and at or below highpass * WAVE_LEN/2; stated
   * for sample j, which belongs to bin j / 2.
   */
  lemma BrickwallBands(fft: Buffer, lowpass: real, highpass: real, j: int)
    requires 0 <= j < WAVE_LEN
    ensures var r := BrickwallSpectrum(fft, lowpass, highpass)[j];
      (j < 2 ==> r == fft[j]) &&
      -1.0 * Abs(fft[j]) <= r <= Abs(fft[j]) &&
      (2 <= j && (WAVE_LEN / 2) as real * lowpass <= (j / 2) as real ==> r == 0.0) &&
      (2 <= j && (j / 2) as real <= (WAVE_LEN / 2) as real * highpass ==> r == 0.0)
  {
    var k := j / 2;
    var v := BrickwallGains(lowpass, highpass)[k];
    assert BrickwallSpectrum(fft, lowpass, highpass)[j] == fft[j] * v;
    if 1 <= k {
      assert v == BrickwallGain(k, lowpass, highpass);
    }
    ScaleByUnit(fft[j], v);
  }

  function Abs(x: real): real
  {
    if x < 0.0 then -x else x
  }

  lemma ScaleByUnit(x: real, v: real)
    requires 0.0 <= v <= 1.0
    ensures -1.0 * Abs(x) <= x * v <= Abs(x)
  {
    if x >= 0.0 {
      MulNonneg(x, v);
      MulNonneg(x, 1.0 - v);
    } else {
      MulNonneg(-x, v);
      MulNonneg(-x, 1.0 - v);
    }
  }

  function BrickwallStep(lib: Lib, e: Effects, s: Buffer): Buffer
  {
    if e[LOWPASS] > 0.0 || e[HIGHPASS] != 0.0 then
      lib.irfft(BrickwallSpectrum(lib.rfft(s), 1.0 - e[LOWPASS], e[HIGHPASS]))
    else s
  }

  // ---------------------------------------------------------------------
  // Feedback modulations (src/wave.cpp:277-297): opaque kernels, exact arguments

  /** The modulation index for phase and frequency feedback: [0, 1] onto [0, 4]. */
  function AngleIndex(e: Effects): real
  {
    Rescalef(Clampf(e[MODULATION_INDEX], 0.0, 1.0), 0.0, 1.0, 0.0, 4.0)
  }

  /** The modulation index for ring and amplitude feedback: [0, 1] onto [1, 9]. */
  function GainIndex(e: Effects): real
  {
    Rescalef(Clampf(e[MODULATION_INDEX], 0.0, 1.0), 0.0, 1.0, 1.0, 9.0)
  }

  function PhaseFeedbackStep(lib: Lib, e: Effects, s: Buffer): Buffer
  {
    if e[PHASE_FEEDBACK] > 0.0 then lib.phaseModulation(s, s, AngleIndex(e), Clampf(e[PHASE_FEEDBACK], 0.0, 1.0)) else s
  }

  function FrequencyFeedbackStep(lib: Lib, e: Effects, s: Buffer): Buffer
  {
    if e[FREQUENCY_FEEDBACK] > 0.0 then lib.frequencyModulation(s, s, AngleIndex(e), Clampf(e[FREQUENCY_FEEDBACK], 0.0, 1.0)) else s
  }

  function RingFeedbackStep(lib: Lib, e: Effects, s: Buffer): Buffer
  {
    if e[RING_FEEDBACK] > 0.0 then lib.ringModulation(s, s, GainIndex(e), Clampf(e[RING_FEEDBACK], 0.0, 1.0)) else s
  }

  function AmplitudeFeedbackStep(lib: Lib, e: Effects, s: Buffer): Buffer
  {
    if e[AMPLITUDE_FEEDBACK] > 0.0 then lib.amplitudeModulation(s, s, GainIndex(e), Clampf(e[AMPLITUDE_FEEDBACK], 0.0, 1.0)) else s
  }

  // ---------------------------------------------------------------------
  // Low/mid/high boost (src/wave.cpp:299-335)

  const BOOST_LEVEL: real := 4.0

  /** The low-boost increment of bin i < WAVE_LEN/4, falling towards the middle. */
  function LowTerm(e: Effects, i: int): real
  {
    BOOST_LEVEL * e[LOW_BOOST] * (WAVE_LEN / 4 - i) as real / WAVE_LEN as real * 4.0
  }

  /** The high-boost increment of bin i >= WAVE_LEN/4, rising towards the top. */
  function HighTerm(e: Effects, i: int): real
  {
    BOOST_LEVEL * e[HIGH_BOOST] * (1 + i - WAVE_LEN / 4) as real / WAVE_LEN as real * 4.0
  }

  /** The additive low and high boosts of bin i, before the mid boost. */
  function EdgeBoost(e: Effects, i: nat): real
    requires i < WAVE_LEN / 2
  {
    var b := if e[LOW_BOOST] > 0.0 && i < WAVE_LEN / 4 then 1.0 + LowTerm(e, i) else 1.0;
    if e[HIGH_BOOST] > 0.0 && WAVE_LEN / 4 <= i then b + HighTerm(e, i) else b
  }

  /** The multiplicative mid-boost factor of bin i, peaking at the centre of the spectrum. */
  function MidFactor(e: Effects, i: int): real
  {
    if i < WAVE_LEN / 4 then 1.0 + BOOST_LEVEL * e[MID_BOOST] * (i + 1) as real / WAVE_LEN as real * 4.0
    else 1.0 + BOOST_LEVEL * e[MID_BOOST] * (WAVE_LEN / 2 - i) as real / WAVE_LEN as real * 4.0
  }

  function MidBoost(e: Effects, i: nat): real
    requires i < WAVE_LEN / 2
  {
    if e[MID_BOOST] <= 0.0 then 1.0 else MidFactor(e, i)
  }

  function BoostFactor(e: Effects, i: nat): real
    requires i < WAVE_LEN / 2
  {
    EdgeBoost(e, i) * MidBoost(e, i)
  }

  /** Only positive amounts take part, so no bin is ever attenuated. */
  lemma BoostAtLeastOne(e: Effects, i: nat)
    requires i < WAVE_LEN / 2
    ensures BoostFactor(e, i) >= 1.0
    ensures e[LOW_BOOST] <= 0.0 && e[MID_BOOST] <= 0.0 && e[HIGH_BOOST] <= 0.0 ==> BoostFactor(e, i) == 1.0
  {
    if e[LOW_BOOST] > 0.0 && i < WAVE_LEN / 4 {
      MulNonneg(BOOST_LEVEL * e[LOW_BOOST], (WAVE_LEN / 4 - i) as real);
    }
    if e[HIGH_BOOST] > 0.0 && WAVE_LEN / 4 <= i {
      MulNonneg(BOOST_LEVEL * e[HIGH_BOOST], (1 + i - WAVE_LEN / 4) as real);
    }
    if e[MID_BOOST] > 0.0 {
      assert MidBoost(e, i) == MidFactor(e, i);
      if i < WAVE_LEN / 4 {
        MulNonneg(BOOST_LEVEL * e[MID_BOOST], (i + 1) as real);
      } else {
        MulNonneg(BOOST_LEVEL * e[MID_BOOST], (WAVE_LEN / 2 - i) as real);
      }
    }
    var a, m := EdgeBoost(e, i), MidBoost(e, i);
    assert a >= 1.0 && m >= 1.0;
    MulLe(1.0, m, a);
    MulLe(1.0, a, 1.0);
    assert a * m == m * a;
  }

  /** The boost factor of every bin. */
  function BoostGains(e: Effects): (g: seq<real>)
    ensures |g| == WAVE_LEN / 2
  {
    seq(WAVE_LEN / 2, k requires 0 <= k < WAVE_LEN / 2 => BoostFactor(e, k))
  }

  function BoostSpectrum(e: Effects, fft: Buffer): Buffer
  {
    ScaleBins(fft, BoostGains(e))
  }

  predicate BoostGate(e: Effects)
  {
    e[LOW_BOOST] > 0.0 || e[MID_BOOST] > 0.0 || e[HIGH_BOOST] > 0.0
  }

  function BoostStep(lib: Lib, e: Effects, s: Buffer): Buffer
  {
    if BoostGate(e) then lib.irfft(BoostSpectrum(e, lib.rfft(s))) else s
  }

  // ---------------------------------------------------------------------
  // Cycle, normalize, hard clip (src/wave.cpp:352-369)

  /** The value of the subtracted line at sample i. */
  function CycleRamp(start: real, end: real, i: int): real
  {
    (end - start) * (i - WAVE_LEN / 2) as real / WAVE_LEN as real
  }

  /** Subtracts the line through sample WAVE_LEN/2 whose slope is (end - start) / WAVE_LEN. */
  function Cycled(s: Buffer): Buffer
  {
    var start := s[0];
    var end := s[WAVE_LEN - 1] / (WAVE_LEN - 1) as real * WAVE_LEN as real;
    seq(WAVE_LEN, i requires 0 <= i < WAVE_LEN => s[i] - CycleRamp(start, end, i))
  }

  /**
   * Cycling leaves sample WAVE_LEN/2 in place and lowers every step between
   * neighbours by the same amount.
   */
  lemma CycledRamp(s: Buffer)
    ensures var end := s[WAVE_LEN - 1] / (WAVE_LEN - 1) as real * WAVE_LEN as real;
            Cycled(s)[WAVE_LEN / 2] == s[WAVE_LEN / 2] &&
            forall i :: 1 <= i < WAVE_LEN ==>
              Cycled(s)[i] - Cycled(s)[i - 1] == s[i] - s[i - 1] - (end - s[0]) / WAVE_LEN as real
  {
    var end := s[WAVE_LEN - 1] / (WAVE_LEN - 1) as real * WAVE_LEN as real;
    var k := end - s[0];
    forall i | 1 <= i < WAVE_LEN
      ensures Cycled(s)[i] - Cycled(s)[i - 1] == s[i] - s[i - 1] - k / WAVE_LEN as real
    {
      var a := (i - WAVE_LEN / 2) as real;
      assert k * a - k * (a - 1.0) == k;
    }
  }

  function CycleStep(cycle: bool, s: Buffer): Buffer
  {
    if cycle then Cycled(s) else s
  }

  function NormalizeStep(lib: Lib, normalize: bool, s: Buffer): Buffer
  {
    if normalize then Normalized(lib, s, -1.0, 1.0, 0.0) else s
  }

  function Clipped(s: Buffer): (r: Buffer)
    ensures InRange(r, -1.0, 1.0)
    ensures forall i :: 0 <= i < WAVE_LEN && -1.0 <= s[i] <= 1.0 ==> r[i] == s[i]
  {
    seq(WAVE_LEN, i requires 0 <= i < WAVE_LEN => Clampf(s[i], -1.0, 1.0))
  }

  // ---------------------------------------------------------------------
  // The pipeline

  /** The gated stages of updatePost, in the order the source runs them. */
  datatype Stage =
    | PreGain | Harmonic | Distortion | Comb | Chebyshev | SampleHold | TrackHold | Quantize | Slew
    | Brickwall | PhaseFeedback | FrequencyFeedback | RingFeedback | AmplitudeFeedback | Boost | PostGain
    | Cycle | Normalize

  const STAGES: nat := 18

  /** Stage k of the pipeline. */
  function StageAt(k: nat): Stage
    requires k < STAGES
  {
    match k
    case 0 => PreGain
    case 1 => Harmonic
    case 2 => Distortion
    case 3 => Comb
    case 4 => Chebyshev
    case 5 => SampleHold
    case 6 => TrackHold
    case 7 => Quantize
    case 8 => Slew
    case 9 => Brickwall
    case 10 => PhaseFeedback
    case 11 => FrequencyFeedback
    case 12 => RingFeedback
    case 13 => AmplitudeFeedback
    case 14 => Boost
    case 15 => PostGain
    case 16 => Cycle
    case _ => Normalize
  }

  /** One stage, gate included. */
  function StageOut(lib: Lib, e: Effects, cycle: bool, normalize: bool, st: Stage, s: Buffer): Buffer
    requires lib.Valid() && PostDefined(e)
  {
    match st
    case PreGain => PreGainStep(lib, e, s)
    case Harmonic => HarmonicStep(lib, e, s)
    case Distortion => DistortionStep(e, s)
    case Comb => CombStep(lib, e, s)
    case Chebyshev => ChebyshevStep(lib, e, s)
    case SampleHold => SampleHoldStep(lib, e, s)
    case TrackHold => TrackHoldStep(lib, e, s)
    case Quantize => QuantizeStep(lib, e, s)
    case Slew => SlewStep(lib, e, s)
    case Brickwall => BrickwallStep(lib, e, s)
    case PhaseFeedback => PhaseFeedbackStep(lib, e, s)
    case FrequencyFeedback => FrequencyFeedbackStep(lib, e, s)
    case RingFeedback => RingFeedbackStep(lib, e, s)
    case AmplitudeFeedback => AmplitudeFeedbackStep(lib, e, s)
    case Boost => BoostStep(lib, e, s)
    case PostGain => PostGainStep(lib, e, s)
    case Cycle => CycleStep(cycle, s)
    case Normalize => NormalizeStep(lib, normalize, s)
  }

  /** The first n stages applied in order. */
  function Pipeline(lib: Lib, e: Effects, cycle: bool, normalize: bool, n: nat, s: Buffer): Buffer
    requires lib.Valid() && PostDefined(e) && n <= STAGES
  {
    if n == 0 then s
    else StageOut(lib, e, cycle, normalize, StageAt(n - 1), Pipeline(lib, e, cycle, normalize, n - 1, s))
  }

  /** What updatePost leaves in `out` before it is copied to postSamples: the pipeline, then the hard clip. */
  function PostOut(lib: Lib, samples: Buffer, e: Effects, cycle: bool, normalize: bool): (r: Buffer)
    requires lib.Valid() && PostDefined(e)
    ensures InRange(r, -1.0, 1.0)
  {
    Clipped(Pipeline(lib, e, cycle, normalize, STAGES, samples))
  }

  /** A stage whose gate is closed: every effect at 0, and cycle or normalize off for those two stages. */
  predicate Idle(e: Effects, cycle: bool, normalize: bool, st: Stage)
  {
    && (forall i :: 0 <= i < EFFECTS_LEN ==> e[i] == 0.0)
    && (st == Cycle ==> !cycle)
    && (st == Normalize ==> !normalize)
  }

  /** A closed stage passes its input through. */
  lemma IdleStage(lib: Lib, e: Effects, cycle: bool, normalize: bool, st: Stage, s: Buffer)
    requires lib.Valid() && PostDefined(e) && Idle(e, cycle, normalize, st)
    ensures StageOut(lib, e, cycle, normalize, st, s) == s
  {
    assert e[PRE_GAIN] == 0.0 && e[POST_GAIN] == 0.0 && e[COMB] == 0.0 && e[CHEBYSHEV] == 0.0;
    assert e[PHASE_DISTORTION] == 0.0 && e[CUBIC_DISTORTION] == 0.0 && e[SAMPLE_AND_HOLD] == 0.0;
    assert e[TRACK_AND_HOLD] == 0.0 && e[QUANTIZATION] == 0.0 && e[SLEW] == 0.0 && e[LOWPASS] == 0.0;
    assert e[HIGHPASS] == 0.0 && e[PHASE_FEEDBACK] == 0.0 && e[FREQUENCY_FEEDBACK] == 0.0;
    assert e[RING_FEEDBACK] == 0.0 && e[AMPLITUDE_FEEDBACK] == 0.0;
    assert e[LOW_BOOST] == 0.0 && e[MID_BOOST] == 0.0 && e[HIGH_BOOST] == 0.0;
    assert !HarmonicGate(e) by {
      assert e[HARMONIC_STRETCH] == 0.0 && e[PHASE_SHIFT] == 0.0 && e[HARMONIC_ASYMETRY] == 0.0;
      assert e[HARMONIC_BALANCE] == 0.0 && e[HARMONIC_SHIFT] == 0.0 && e[HARMONIC_FOLD] == 0.0;
    }
  }

  /** A run of closed stages passes its input through. */
  lemma {:induction false} IdlePipeline(lib: Lib, e: Effects, cycle: bool, normalize: bool, n: nat, s: Buffer)
    requires lib.Valid() && PostDefined(e) && n <= STAGES
    requires forall k :: 0 <= k < n ==> Idle(e, cycle, normalize, StageAt(k))
    ensures Pipeline(lib, e, cycle, normalize, n, s) == s
  {
    if n > 0 {
      IdlePipeline(lib, e, cycle, normalize, n - 1, s);
      IdleStage(lib, e, cycle, normalize, StageAt(n - 1), s);
    }
  }

  /** With every effect at 0 and cycle and normalize off, every gate is closed: the output is the clipped input. */
  lemma PostOutBypass(lib: Lib, samples: Buffer, e: Effects)
    requires lib.Valid()
    requires forall i :: 0 <= i < EFFECTS_LEN ==> e[i] == 0.0
    ensures PostDefined(e)
    ensures PostOut(lib, samples, e, false, false) == Clipped(samples)
  {
    assert e[CUBIC_DISTORTION] == 0.0;
    IdlePipeline(lib, e, false, false, STAGES, samples);
  }

  /** With only normalize on, the output is the normalized input, and all zeros when the input is flat. */
  lemma PostOutNormalizeOnly(lib: Lib, samples: Buffer, e: Effects)
    requires lib.Valid()
    requires forall i :: 0 <= i < EFFECTS_LEN ==> e[i] == 0.0
    ensures PostDefined(e)
    ensures PostOut(lib, samples, e, false, true) == Normalized(lib, samples, -1.0, 1.0, 0.0)
    ensures !IsSpread(samples) ==> PostOut(lib, samples, e, false, true) == Zeros()
  {
    assert e[CUBIC_DISTORTION] == 0.0;
    IdlePipeline(lib, e, false, true, STAGES - 1, samples);
    var n := Normalized(lib, samples, -1.0, 1.0, 0.0);
    assert Pipeline(lib, e, false, true, STAGES, samples) == n;
    NormalizedUnit(lib, samples);
    assert Clipped(n) == n;
  }

  // ---------------------------------------------------------------------
  // The stages in place on the local buffer

  /** `memcpy(out, s, ...)` */
  method Store(out: array<real>, s: seq<real>)
    requires out.Length == |s|
    modifies out
    ensures out[..] == s
  {
    for i := 0 to out.Length
      invariant forall k :: 0 <= k < i ==> out[k] == s[k]
    {
      out[i] := s[i];
    }
  }

  method ApplyGain(lib: Lib, out: array<real>, g: real)
    requires out.Length == WAVE_LEN
    modifies out
    ensures out[..] == GainStage(lib, old(out[..]), g)
  {
    var gain := lib.pow(20.0, g);
    ghost var want := GainStage(lib, out[..], g);
    for i := 0 to WAVE_LEN
      invariant forall k :: 0 <= k < i ==> out[k] == want[k]
      invariant forall k :: i <= k < WAVE_LEN ==> out[k] == old(out[k])
    {
      // the dry sample is out[i] itself, which the C code keeps in tmp[i]
      out[i] := GainSample(out[i], gain, g);
    }
  }

  method ApplyPreGain(lib: Lib, e: Effects, out: array<real>)
    requires out.Length == WAVE_LEN
    modifies out
    ensures out[..] == PreGainStep(lib, e, old(out[..]))
  {
    if e[PRE_GAIN] != 0.0 {
      ApplyGain(lib, out, e[PRE_GAIN]);
    }
  }

  method ApplyPostGain(lib: Lib, e: Effects, out: array<real>)
    requires out.Length == WAVE_LEN
    modifies out
    ensures out[..] == PostGainStep(lib, e, old(out[..]))
  {
    if e[POST_GAIN] != 0.0 {
      ApplyGain(lib, out, e[POST_GAIN]);
    }
  }

  method ApplyHarmonic(lib: Lib, e: Effects, out: array<real>)
    requires out.Length == WAVE_LEN
    modifies out
    ensures out[..] == HarmonicStep(lib, e, old(out[..]))
  {
    if HarmonicGate(e) {
      Store(out, lib.harmonicStage(out[..], e));
    }
  }

  method ApplyComb(lib: Lib, e: Effects, out: array<real>)
    requires out.Length == WAVE_LEN
    modifies out
    ensures out[..] == CombStep(lib, e, old(out[..]))
  {
    if e[COMB] > 0.0 {
      Store(out, lib.combStage(out[..], e[COMB]));
    }
  }

  method ApplyDistortion(e: Effects, out: array<real>)
    requires out.Length == WAVE_LEN && PostDefined(e)
    modifies out
    ensures out[..] == DistortionStep(e, old(out[..]))
  {
    if e[PHASE_DISTORTION] > 0.0 || e[CUBIC_DISTORTION] > 0.0 {
      var tmp := Wrapped(out[..]);
      var pd, cd := e[PHASE_DISTORTION], e[CUBIC_DISTORTION];
      for i := 0 to WAVE_LEN
        invariant forall k :: 0 <= k < i ==> out[k] == DistortedSample(tmp, k, pd, cd)
      {
        // the final phase, its integer part and the interpolation between tmp[idx] and tmp[idx + 1]
        out[i] := DistortedSample(tmp, i, pd, cd);
      }
    }
  }

  method ApplyChebyshev(lib: Lib, e: Effects, out: array<real>)
    requires out.Length == WAVE_LEN
    modifies out
    ensures out[..] == ChebyshevStep(lib, e, old(out[..]))
  {
    if e[CHEBYSHEV] > 0.0 {
      var n := lib.pow(50.0, e[CHEBYSHEV]);
      ghost var s := out[..];
      for i := 0 to WAVE_LEN
        invariant forall k :: 0 <= k < i ==> out[k] == ChebyshevSample(lib, n, s[k])
        invariant forall k :: i <= k < WAVE_LEN ==> out[k] == s[k]
      {
        out[i] := ChebyshevSample(lib, n, out[i]);
      }
    }
  }

  method ApplySampleHold(lib: Lib, e: Effects, out: array<real>)
    requires out.Length == WAVE_LEN && lib.Valid()
    modifies out
    ensures out[..] == SampleHoldStep(lib, e, old(out[..]))
  {
    if e[SAMPLE_AND_HOLD] > 0.0 {
      var fs := Frameskip(lib, e[SAMPLE_AND_HOLD]);
      var tmp := Wrapped(out[..]);
      for i := 0 to WAVE_LEN
        invariant forall k :: 0 <= k < i ==> out[k] == Linterpf(tmp, HoldIndex(k, fs))
      {
        var index := Roundf(i as real / fs) as real * fs;
        assert Clampf(index, 0.0, (WAVE_LEN - 1) as real) == HoldIndex(i, fs);
        out[i] := Linterpf(tmp, Clampf(index, 0.0, (WAVE_LEN - 1) as real));
      }
    }
  }

  method ApplyTrackHold(lib: Lib, e: Effects, out: array<real>)
    requires out.Length == WAVE_LEN && lib.Valid()
    modifies out
    ensures out[..] == TrackHoldStep(lib, e, old(out[..]))
  {
    if e[TRACK_AND_HOLD] > 0.0 {
      var fs := Frameskip(lib, e[TRACK_AND_HOLD]);
      ghost var s := out[..];
      var tmp := Wrapped(out[..]);
      for i := 0 to WAVE_LEN
        invariant forall k :: 0 <= k < i ==>
          out[k] == if k as real >= HoldPoint(k, fs) then Linterpf(tmp, HoldIndex(k, fs)) else s[k]
        invariant forall k :: i <= k < WAVE_LEN ==> out[k] == s[k]
      {
        var index := Roundf(i as real / fs) as real * fs;
        assert index == HoldPoint(i, fs);
        if i as real >= index {
          assert Clampf(index, 0.0, (WAVE_LEN - 1) as real) == HoldIndex(i, fs);
          out[i] := Linterpf(tmp, Clampf(index, 0.0, (WAVE_LEN - 1) as real));
        }
      }
    }
  }

  method ApplyQuantize(lib: Lib, e: Effects, out: array<real>)
    requires out.Length == WAVE_LEN && lib.Valid()
    modifies out
    ensures out[..] == QuantizeStep(lib, e, old(out[..]))
  {
    if e[QUANTIZATION] > 0.001 {
      var levels := Levels(lib, e[QUANTIZATION]);
      ghost var s := out[..];
      for i := 0 to WAVE_LEN
        invariant forall k :: 0 <= k < i ==> out[k] == Quantized(s[k], levels)
        invariant forall k :: i <= k < WAVE_LEN ==> out[k] == s[k]
      {
        out[i] := Quantized(out[i], levels);
      }
    }
  }

  method ApplySlew(lib: Lib, e: Effects, out: array<real>)
    requires out.Length == WAVE_LEN
    modifies out
    ensures out[..] == SlewStep(lib, e, old(out[..]))
  {
    if e[SLEW] > 0.0 {
      var slew := lib.pow(0.001, e[SLEW]);
      ghost var s := out[..];
      var y := out[0];
      var i := 1;
      while i < WAVE_LEN
        invariant 1 <= i <= WAVE_LEN
        invariant out[..i] == Slewed(s[..i], slew)
        invariant y == out[i - 1]
        invariant forall k :: i <= k < WAVE_LEN ==> out[k] == s[k]
      {
        assert s[..i + 1][..i] == s[..i];
        var dxdt := out[i] - y;
        var dydt := Clampf(dxdt, -slew, slew);
        y := y + dydt;
        assert Slewed(s[..i + 1], slew) == Slewed(s[..i], slew) + [y];
        out[i] := y;
        assert out[..i + 1] == out[..i] + [y];
        i := i + 1;
      }
      assert s[..WAVE_LEN] == s;
      assert out[..WAVE_LEN] == out[..];
    }
  }

  method ApplyBrickwall(lib: Lib, e: Effects, out: array<real>)
    requires out.Length == WAVE_LEN
    modifies out
    ensures out[..] == BrickwallStep(lib, e, old(out[..]))
  {
    if e[LOWPASS] > 0.0 || e[HIGHPASS] != 0.0 {
      var fft := lib.rfft(out[..]);
      fft := FilterBins(fft, 1.0 - e[LOWPASS], e[HIGHPASS]);
      Store(out, lib.irfft(fft));
    }
  }

  /** The bin loop of the brick-wall filter: scales bins 1 .. WAVE_LEN/2 - 1 by their gain. */
  method FilterBins(f0: Buffer, lowpass: real, highpass: real) returns (fft: Buffer)
    ensures fft == BrickwallSpectrum(f0, lowpass, highpass)
  {
    ghost var g := BrickwallGains(lowpass, highpass);
    ghost var want := ScaleBins(f0, g);
    assert g[0] == 1.0;
    fft := f0;
    for i := 1 to WAVE_LEN / 2
      invariant forall j :: 0 <= j < 2 * i ==> fft[j] == want[j]
      invariant forall j :: 2 * i <= j < WAVE_LEN ==> fft[j] == f0[j]
    {
      var v := Clampf((WAVE_LEN / 2) as real * lowpass - i as real, 0.0, 1.0)
             * Clampf(-(WAVE_LEN / 2) as real * highpass + i as real, 0.0, 1.0);
      assert v == g[i];
      ScaleBinStep(f0, g, fft, i, v);
      fft := fft[2 * i := fft[2 * i] * v][2 * i + 1 := fft[2 * i + 1] * v];
    }
  }

  method ApplyFeedback(lib: Lib, e: Effects, out: array<real>)
    requires out.Length == WAVE_LEN
    modifies out
    ensures out[..] == AmplitudeFeedbackStep(lib, e, RingFeedbackStep(lib, e,
                         FrequencyFeedbackStep(lib, e, PhaseFeedbackStep(lib, e, old(out[..])))))
  {
    if e[PHASE_FEEDBACK] > 0.0 {
      Store(out, lib.phaseModulation(out[..], out[..], AngleIndex(e), Clampf(e[PHASE_FEEDBACK], 0.0, 1.0)));
    }
    if e[FREQUENCY_FEEDBACK] > 0.0 {
      Store(out, lib.frequencyModulation(out[..], out[..], AngleIndex(e), Clampf(e[FREQUENCY_FEEDBACK], 0.0, 1.0)));
    }
    if e[RING_FEEDBACK] > 0.0 {
      Store(out, lib.ringModulation(out[..], out[..], GainIndex(e), Clampf(e[RING_FEEDBACK], 0.0, 1.0)));
    }
    if e[AMPLITUDE_FEEDBACK] > 0.0 {
      Store(out, lib.amplitudeModulation(out[..], out[..], GainIndex(e), Clampf(e[AMPLITUDE_FEEDBACK], 0.0, 1.0)));
    }
  }

  /** The boost table as the loops of updatePost build it. */
  method BoostTable(e: Effects) returns (boost: seq<real>)
    ensures |boost| == WAVE_LEN / 2
    ensures forall i :: 0 <= i < WAVE_LEN / 2 ==> boost[i] == BoostFactor(e, i)
  {
    boost := seq(WAVE_LEN / 2, _ => 1.0);
    if e[LOW_BOOST] > 0.0 {
      boost := AddLowBoost(e, boost);
    }
    if e[HIGH_BOOST] > 0.0 {
      boost := AddHighBoost(e, boost);
    }
    assert forall i :: 0 <= i < WAVE_LEN / 2 ==> boost[i] == EdgeBoost(e, i);
    if e[MID_BOOST] > 0.0 {
      boost := ApplyMidBoost(e, boost);
    }
  }

  method AddLowBoost(e: Effects, b0: seq<real>) returns (boost: seq<real>)
    requires |b0| == WAVE_LEN / 2
    ensures |boost| == WAVE_LEN / 2
    ensures forall k :: 0 <= k < WAVE_LEN / 4 ==> boost[k] == b0[k] + LowTerm(e, k)
    ensures forall k :: WAVE_LEN / 4 <= k < WAVE_LEN / 2 ==> boost[k] == b0[k]
  {
    boost := b0;
    for i := 0 to WAVE_LEN / 4
      invariant |boost| == WAVE_LEN / 2
      invariant forall k :: 0 <= k < i ==> boost[k] == b0[k] + LowTerm(e, k)
      invariant forall k :: i <= k < WAVE_LEN / 2 ==> boost[k] == b0[k]
    {
      var t := BOOST_LEVEL * e[LOW_BOOST] * (WAVE_LEN / 4 - i) as real / WAVE_LEN as real * 4.0;
      assert t == LowTerm(e, i);
      boost := boost[i := boost[i] + t];
    }
  }

  method AddHighBoost(e: Effects, b0: seq<real>) returns (boost: seq<real>)
    requires |b0| == WAVE_LEN / 2
    ensures |boost| == WAVE_LEN / 2
    ensures forall k :: 0 <= k < WAVE_LEN / 4 ==> boost[k] == b0[k]
    ensures forall k :: WAVE_LEN / 4 <= k < WAVE_LEN / 2 ==> boost[k] == b0[k] + HighTerm(e, k)
  {
    boost := b0;
    for i := WAVE_LEN / 4 to WAVE_LEN / 2
      invariant |boost| == WAVE_LEN / 2
      invariant forall k :: WAVE_LEN / 4 <= k < i ==> boost[k] == b0[k] + HighTerm(e, k)
      invariant forall k :: 0 <= k < WAVE_LEN / 4 || i <= k < WAVE_LEN / 2 ==> boost[k] == b0[k]
    {
      var t := BOOST_LEVEL * e[HIGH_BOOST] * (1 + i - WAVE_LEN / 4) as real / WAVE_LEN as real * 4.0;
      assert t == HighTerm(e, i);
      boost := boost[i := boost[i] + t];
    }
  }

  method ApplyMidBoost(e: Effects, b0: seq<real>) returns (boost: seq<real>)
    requires |b0| == WAVE_LEN / 2
    ensures |boost| == WAVE_LEN / 2
    ensures forall k :: 0 <= k < WAVE_LEN / 2 ==> boost[k] == b0[k] * MidFactor(e, k)
  {
    boost := b0;
    for i := 0 to WAVE_LEN / 4
      invariant |boost| == WAVE_LEN / 2
      invariant forall k :: 0 <= k < i ==> boost[k] == b0[k] * MidFactor(e, k)
      invariant forall k :: i <= k < WAVE_LEN / 2 ==> boost[k] == b0[k]
    {
      var m := 1.0 + BOOST_LEVEL * e[MID_BOOST] * (i + 1) as real / WAVE_LEN as real * 4.0;
      assert m == MidFactor(e, i);
      boost := boost[i := boost[i] * m];
    }
    for i := WAVE_LEN / 4 to WAVE_LEN / 2
      invariant |boost| == WAVE_LEN / 2
      invariant forall k :: 0 <= k < i ==> boost[k] == b0[k] * MidFactor(e, k)
      invariant forall k :: i <= k < WAVE_LEN / 2 ==> boost[k] == b0[k]
    {
      var m := 1.0 + BOOST_LEVEL * e[MID_BOOST] * (WAVE_LEN / 2 - i) as real / WAVE_LEN as real * 4.0;
      assert m == MidFactor(e, i);
      boost := boost[i := boost[i] * m];
    }
  }

  /** The bin loop of the boost: scales both halves of bin k by boost[k]. */
  method BoostBins(f0: Buffer, boost: seq<real>) returns (fft: Buffer)
    requires |boost| == WAVE_LEN / 2
    ensures fft == ScaleBins(f0, boost)
  {
    ghost var want := ScaleBins(f0, boost);
    fft := f0;
    for i := 0 to WAVE_LEN / 2
      invariant forall j :: 0 <= j < 2 * i ==> fft[j] == want[j]
      invariant forall j :: 2 * i <= j < WAVE_LEN ==> fft[j] == f0[j]
    {
      ScaleBinStep(f0, boost, fft, i, boost[i]);
      fft := fft[2 * i := fft[2 * i] * boost[i]][2 * i + 1 := fft[2 * i + 1] * boost[i]];
    }
  }

  /**
   * One step of a bin loop: both halves of bin i, still as in f0, are scaled
   * by v == gain[i], which extends the scaled prefix by two samples.
   */
  lemma ScaleBinStep(f0: Buffer, gain: seq<real>, fft: Buffer, i: nat, v: real)
    requires |gain| == WAVE_LEN / 2 && i < WAVE_LEN / 2 && v == gain[i]
    requires forall j :: 0 <= j < 2 * i ==> fft[j] == ScaleBins(f0, gain)[j]
    requires forall j :: 2 * i <= j < WAVE_LEN ==> fft[j] == f0[j]
    ensures var r := fft[2 * i := fft[2 * i] * v][2 * i + 1 := fft[2 * i + 1] * v];
      (forall j :: 0 <= j < 2 * i + 2 ==> r[j] == ScaleBins(f0, gain)[j]) &&
      (forall j :: 2 * i + 2 <= j < WAVE_LEN ==> r[j] == f0[j])
  {
    assert (2 * i) / 2 == i && (2 * i + 1) / 2 == i;
  }

  method ApplyBoost(lib: Lib, e: Effects, out: array<real>)
    requires out.Length == WAVE_LEN
    modifies out
    ensures out[..] == BoostStep(lib, e, old(out[..]))
  {
    if BoostGate(e) {
      var boost := BoostTable(e);
      var f0 := lib.rfft(out[..]);
      assert boost == BoostGains(e);
      var fft := BoostBins(f0, boost);
      Store(out, lib.irfft(fft));
    }
  }

  method ApplyCycle(cycle: bool, out: array<real>)
    requires out.Length == WAVE_LEN
    modifies out
    ensures out[..] == CycleStep(cycle, old(out[..]))
  {
    if cycle {
      ghost var s := out[..];
      var start := out[0];
      var end := out[WAVE_LEN - 1] / (WAVE_LEN - 1) as real * WAVE_LEN as real;
      for i := 0 to WAVE_LEN
        invariant forall k :: 0 <= k < i ==> out[k] == s[k] - CycleRamp(start, end, k)
        invariant forall k :: i <= k < WAVE_LEN ==> out[k] == s[k]
      {
        var ramp := (end - start) * (i - WAVE_LEN / 2) as real / WAVE_LEN as real;
        assert ramp == CycleRamp(start, end, i);
        out[i] := out[i] - ramp;
      }
    }
  }

  method ApplyClip(out: array<real>)
    requires out.Length == WAVE_LEN
    modifies out
    ensures out[..] == Clipped(old(out[..]))
  {
    ghost var s := out[..];
    for i := 0 to WAVE_LEN
      invariant forall k :: 0 <= k < i ==> out[k] == Clampf(s[k], -1.0, 1.0)
      invariant forall k :: i <= k < WAVE_LEN ==> out[k] == s[k]
    {
      out[i] := Clampf(out[i], -1.0, 1.0);
    }
  }

  /** The body of updatePost up to the copy into postSamples. */
  method RunPipeline(lib: Lib, samples: Buffer, e: Effects, cycle: bool, normalize: bool) returns (post: Buffer)
    requires lib.Valid() && PostDefined(e)
    ensures post == PostOut(lib, samples, e, cycle, normalize)
  {
    var out := new real[WAVE_LEN];
    Store(out, samples);
    RunPreGain(lib, e, cycle, normalize, samples, out);
    RunHarmonic(lib, e, cycle, normalize, samples, out);
    RunDistortion(lib, e, cycle, normalize, samples, out);
    RunComb(lib, e, cycle, normalize, samples, out);
    RunChebyshev(lib, e, cycle, normalize, samples, out);
    RunSampleHold(lib, e, cycle, normalize, samples, out);
    RunTrackHold(lib, e, cycle, normalize, samples, out);
    RunQuantize(lib, e, cycle, normalize, samples, out);
    RunSlew(lib, e, cycle, normalize, samples, out);
    RunBrickwall(lib, e, cycle, normalize, samples, out);
    RunFeedback(lib, e, cycle, normalize, samples, out);
    RunBoost(lib, e, cycle, normalize, samples, out);
    RunPostGain(lib, e, cycle, normalize, samples, out);
    RunCycle(lib, e, cycle, normalize, samples, out);
    RunNormalize(lib, e, cycle, normalize, samples, out);
    ApplyClip(out);
    post := out[..];
  }


  /** Stage 0 of the pipeline, in place on `out`. */
  method RunPreGain(lib: Lib, e: Effects, cycle: bool, normalize: bool, ghost s0: Buffer, out: array<real>)
    requires lib.Valid() && PostDefined(e)
    requires out.Length == WAVE_LEN && out[..] == Pipeline(lib, e, cycle, normalize, 0, s0)
    modifies out
    ensures out[..] == Pipeline(lib, e, cycle, normalize, 1, s0)
  {
    ApplyPreGain(lib, e, out);
  }

  /** Stage 1 of the pipeline, in place on `out`. */
  method RunHarmonic(lib: Lib, e: Effects, cycle: bool, normalize: bool, ghost s0: Buffer, out: array<real>)
    requires lib.Valid() && PostDefined(e)
    requires out.Length == WAVE_LEN && out[..] == Pipeline(lib, e, cycle, normalize, 1, s0)
    modifies out
    ensures out[..] == Pipeline(lib, e, cycle, normalize, 2, s0)
  {
    ApplyHarmonic(lib, e, out);
  }

  /** Stage 2 of the pipeline, in place on `out`. */
  method RunDistortion(lib: Lib, e: Effects, cycle: bool, normalize: bool, ghost s0: Buffer, out: array<real>)
    requires lib.Valid() && PostDefined(e)
    requires out.Length == WAVE_LEN && out[..] == Pipeline(lib, e, cycle, normalize, 2, s0)
    modifies out
    ensures out[..] == Pipeline(lib, e, cycle, normalize, 3, s0)
  {
    ApplyDistortion(e, out);
  }

  /** Stage 3 of the pipeline, in place on `out`. */
  method RunComb(lib: Lib, e: Effects, cycle: bool, normalize: bool, ghost s0: Buffer, out: array<real>)
    requires lib.Valid() && PostDefined(e)
    requires out.Length == WAVE_LEN && out[..] == Pipeline(lib, e, cycle, normalize, 3, s0)
    modifies out
    ensures out[..] == Pipeline(lib, e, cycle, normalize, 4, s0)
  {
    ApplyComb(lib, e, out);
  }

  /** Stage 4 of the pipeline, in place on `out`. */
  method RunChebyshev(lib: Lib, e: Effects, cycle: bool, normalize: bool, ghost s0: Buffer, out: array<real>)
    requires lib.Valid() && PostDefined(e)
    requires out.Length == WAVE_LEN && out[..] == Pipeline(lib, e, cycle, normalize, 4, s0)
    modifies out
    ensures out[..] == Pipeline(lib, e, cycle, normalize, 5, s0)
  {
    ApplyChebyshev(lib, e, out);
  }

  /** Stage 5 of the pipeline, in place on `out`. */
  method RunSampleHold(lib: Lib, e: Effects, cycle: bool, normalize: bool, ghost s0: Buffer, out: array<real>)
    requires lib.Valid() && PostDefined(e)
    requires out.Length == WAVE_LEN && out[..] == Pipeline(lib, e, cycle, normalize, 5, s0)
    modifies out
    ensures out[..] == Pipeline(lib, e, cycle, normalize, 6, s0)
  {
    ApplySampleHold(lib, e, out);
  }

  /** Stage 6 of the pipeline, in place on `out`. */
  method RunTrackHold(lib: Lib, e: Effects, cycle: bool, normalize: bool, ghost s0: Buffer, out: array<real>)
    requires lib.Valid() && PostDefined(e)
    requires out.Length == WAVE_LEN && out[..] == Pipeline(lib, e, cycle, normalize, 6, s0)
    modifies out
    ensures out[..] == Pipeline(lib, e, cycle, normalize, 7, s0)
  {
    ApplyTrackHold(lib, e, out);
  }

  /** Stage 7 of the pipeline, in place on `out`. */
  method RunQuantize(lib: Lib, e: Effects, cycle: bool, normalize: bool, ghost s0: Buffer, out: array<real>)
    requires lib.Valid() && PostDefined(e)
    requires out.Length == WAVE_LEN && out[..] == Pipeline(lib, e, cycle, normalize, 7, s0)
    modifies out
    ensures out[..] == Pipeline(lib, e, cycle, normalize, 8, s0)
  {
    ApplyQuantize(lib, e, out);
  }

  /** Stage 8 of the pipeline, in place on `out`. */
  method RunSlew(lib: Lib, e: Effects, cycle: bool, normalize: bool, ghost s0: Buffer, out: array<real>)
    requires lib.Valid() && PostDefined(e)
    requires out.Length == WAVE_LEN && out[..] == Pipeline(lib, e, cycle, normalize, 8, s0)
    modifies out
    ensures out[..] == Pipeline(lib, e, cycle, normalize, 9, s0)
  {
    ApplySlew(lib, e, out);
  }

  /** Stage 9 of the pipeline, in place on `out`. */
  method RunBrickwall(lib: Lib, e: Effects, cycle: bool, normalize: bool, ghost s0: Buffer, out: array<real>)
    requires lib.Valid() && PostDefined(e)
    requires out.Length == WAVE_LEN && out[..] == Pipeline(lib, e, cycle, normalize, 9, s0)
    modifies out
    ensures out[..] == Pipeline(lib, e, cycle, normalize, 10, s0)
  {
    ApplyBrickwall(lib, e, out);
  }


  /** The four feedback stages, 10 to 13, are applied back to back. */
  lemma FeedbackStages(lib: Lib, e: Effects, cycle: bool, normalize: bool, s0: Buffer)
    requires lib.Valid() && PostDefined(e)
    ensures Pipeline(lib, e, cycle, normalize, 14, s0)
         == AmplitudeFeedbackStep(lib, e, RingFeedbackStep(lib, e, FrequencyFeedbackStep(lib, e,
              PhaseFeedbackStep(lib, e, Pipeline(lib, e, cycle, normalize, 10, s0)))))
  {
    var p10 := Pipeline(lib, e, cycle, normalize, 10, s0);
    assert Pipeline(lib, e, cycle, normalize, 11, s0) == PhaseFeedbackStep(lib, e, p10);
    assert Pipeline(lib, e, cycle, normalize, 12, s0) == FrequencyFeedbackStep(lib, e, PhaseFeedbackStep(lib, e, p10));
    assert Pipeline(lib, e, cycle, normalize, 13, s0) == RingFeedbackStep(lib, e, FrequencyFeedbackStep(lib, e, PhaseFeedbackStep(lib, e, p10)));
  }

  /** Stages 10 to 13 of the pipeline, in place on `out`. */
  method RunFeedback(lib: Lib, e: Effects, cycle: bool, normalize: bool, ghost s0: Buffer, out: array<real>)
    requires lib.Valid() && PostDefined(e)
    requires out.Length == WAVE_LEN && out[..] == Pipeline(lib, e, cycle, normalize, 10, s0)
    modifies out
    ensures out[..] == Pipeline(lib, e, cycle, normalize, 14, s0)
  {
    FeedbackStages(lib, e, cycle, normalize, s0);
    ApplyFeedback(lib, e, out);
  }

  /** Stage 14 of the pipeline, in place on `out`. */
  method RunBoost(lib: Lib, e: Effects, cycle: bool, normalize: bool, ghost s0: Buffer, out: array<real>)
    requires lib.Valid() && PostDefined(e)
    requires out.Length == WAVE_LEN && out[..] == Pipeline(lib, e, cycle, normalize, 14, s0)
    modifies out
    ensures out[..] == Pipeline(lib, e, cycle, normalize, 15, s0)
  {
    ApplyBoost(lib, e, out);
  }

  /** Stage 15 of the pipeline, in place on `out`. */
  method RunPostGain(lib: Lib, e: Effects, cycle: bool, normalize: bool, ghost s0: Buffer, out: array<real>)
    requires lib.Valid() && PostDefined(e)
    requires out.Length == WAVE_LEN && out[..] == Pipeline(lib, e, cycle, normalize, 15, s0)
    modifies out
    ensures out[..] == Pipeline(lib, e, cycle, normalize, 16, s0)
  {
    ApplyPostGain(lib, e, out);
  }

  /** Stage 16 of the pipeline, in place on `out`. */
  method RunCycle(lib: Lib, e: Effects, cycle: bool, normalize: bool, ghost s0: Buffer, out: array<real>)
    requires lib.Valid() && PostDefined(e)
    requires out.Length == WAVE_LEN && out[..] == Pipeline(lib, e, cycle, normalize, 16, s0)
    modifies out
    ensures out[..] == Pipeline(lib, e, cycle, normalize, 17, s0)
  {
    ApplyCycle(cycle, out);
  }

  /** Stage 17 of the pipeline, in place on `out`. */
  method RunNormalize(lib: Lib, e: Effects, cycle: bool, normalize: bool, ghost s0: Buffer, out: array<real>)
    requires lib.Valid() && PostDefined(e)
    requires out.Length == WAVE_LEN && out[..] == Pipeline(lib, e, cycle, normalize, 17, s0)
    modifies out
    ensures out[..] == Pipeline(lib, e, cycle, normalize, 18, s0)
  {
    assert Pipeline(lib, e, cycle, normalize, 18, s0) == NormalizeStep(lib, normalize, out[..]);
    if normalize {
      NormalizeArray(lib, out, -1.0, 1.0, 0.0);
    }
  }
}
