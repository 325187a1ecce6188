/**
 * The Oscillator of src/oscillator.cpp: seven piecewise shapes, each drawn in
 * a lower half (phase < pulse width) and an upper half (phase >= pulse
 * width) that can be switched on separately. A generator writes the raw
 * sample of the halves that are on and accumulates a band-limiting
 * correction in a separate compensation buffer; `getWave` normalizes the raw
 * samples, and `render` cross-fades two shapes, once over the whole cycle or
 * once per half.
 *
 * Each generator is a loop over the buffer; its specification gives the
 * value of one element from its phase and its old value.
 */
module OscillatorModel {
  import opened Kernels

  // WaveShapeID
  const SINE: int := 0
  const HALF_SINE: int := 1
  const TRIANGLE: int := 2
  const TRI_PULSE: int := 3
  const SQUARE: int := 4
  const RECTANGLE: int := 5
  const TRAPEZOID: int := 6
  const WAVE_SHAPES_LEN: int := 7

  /** The two fields of the struct: `pulse_width` and `dt`. */
  datatype Oscillator = Oscillator(pulseWidth: real, dt: real)

  /** `(float) i / WAVE_LEN` */
  function Phase(i: int): (p: real)
    ensures 0 <= i < WAVE_LEN ==> 0.0 <= p < 1.0
  {
    i as real / WAVE_LEN as real
  }

  /** Later elements have later phases. */
  lemma PhaseIncreasing(i: int, j: int)
    requires i < j
    ensures Phase(i) < Phase(j)
  {
    DivLt(i as real, j as real, WAVE_LEN as real);
  }

  lemma DivLt(a: real, b: real, d: real)
    requires a < b && 0.0 < d
    ensures a / d < b / d
  {
    var x, y := a / d, b / d;
    assert x * d == a && y * d == b;
    if x >= y {
      MulLe(y, x, d);
    }
  }

  // ---------------------------------------------------------------------
  // Band-limiting residuals at a wrapped phase

  /** The argument of `blep`/`blamp` is defined when it is wrapped from a non-negative value, or when dt is not zero. */
  lemma Wrapped(x: real, dt: real)
    requires 0.0 <= x || dt != 0.0
    ensures BandlimitDefined(Fmod(x, 1.0), dt)
  {
    if 0.0 <= x {
      FmodBounds(x, 1.0);
    }
  }

  /** `blep(fmod(x, 1.0), dt)` */
  function BlepAt(x: real, dt: real): real
    requires 0.0 <= x || dt != 0.0
  {
    Wrapped(x, dt);
    Blep(Fmod(x, 1.0), dt)
  }

  /** `blamp(fmod(x, 1.0), dt)` */
  function BlampAt(x: real, dt: real): real
    requires 0.0 <= x || dt != 0.0
  {
    Wrapped(x, dt);
    Blamp(Fmod(x, 1.0), dt)
  }

  // ---------------------------------------------------------------------
  // What each shape needs of the pulse width

  /**
   * The pulse widths for which a shape never divides by zero: the shapes that
   * divide by `pulse_width` or `1 - pulse_width` need 0 < pw < 1; square,
   * rectangle and half-sine need it only to keep their wrapped residual
   * arguments non-negative, which a non-zero dt makes unnecessary; sine
   * divides only on the side where the divisor cannot vanish.
   */
  predicate Defined(osc: Oscillator, shape: int)
  {
    var pw := osc.pulseWidth;
    if shape == HALF_SINE then 0.0 <= pw || osc.dt != 0.0
    else if shape == SQUARE || shape == RECTANGLE then pw <= 1.0 || osc.dt != 0.0
    else if shape == TRIANGLE || shape == TRI_PULSE || shape == TRAPEZOID then 0.0 < pw < 1.0
    else true
  }

  /** Whether a generator writes the sample at this phase. */
  predicate Drawn(osc: Oscillator, lower: bool, upper: bool, phase: real)
  {
    (lower && phase < osc.pulseWidth) || (upper && phase >= osc.pulseWidth)
  }

  // ---------------------------------------------------------------------
  // sineWave

  function SineSample(lib: Lib, osc: Oscillator, lower: bool, upper: bool, phase: real, s: real): real
    requires 0.0 <= phase < 1.0
  {
    var pw := osc.pulseWidth;
    if phase < pw && lower then lib.sin(PI * (phase / pw - 0.5))
    else if phase >= pw && upper then lib.sin(PI * ((phase - pw) / (1.0 - pw) + 0.5))
    else s
  }

  /** The samples `sineWave` leaves. */
  function SineSamples(lib: Lib, osc: Oscillator, lower: bool, upper: bool, s0: seq<real>): (r: seq<real>)
    requires |s0| == WAVE_LEN
    ensures |r| == WAVE_LEN
  {
    seq(WAVE_LEN, k requires 0 <= k < WAVE_LEN => SineSample(lib, osc, lower, upper, Phase(k), s0[k]))
  }

  method SineWave(lib: Lib, osc: Oscillator, lower: bool, upper: bool, samples: array<real>)
    requires samples.Length == WAVE_LEN
    modifies samples
    ensures samples[..] == SineSamples(lib, osc, lower, upper, old(samples[..]))
  {
    ghost var wantS := SineSamples(lib, osc, lower, upper, samples[..]);
    for i := 0 to WAVE_LEN
      invariant forall k :: 0 <= k < i ==> samples[k] == wantS[k]
      invariant forall k :: i <= k < WAVE_LEN ==> samples[k] == old(samples[k])
    {
      var phase := Phase(i);
      samples[i] := SineSample(lib, osc, lower, upper, phase, samples[i]);
    }
    assert samples[..] == wantS;
  }


  // ---------------------------------------------------------------------
  // halfSineWave

  function HalfSineSample(lib: Lib, osc: Oscillator, lower: bool, upper: bool, phase: real, s: real): real
    requires 0.0 <= phase < 1.0
  {
    var pw := osc.pulseWidth;
    var t1 := 0.5 * pw;
    var t2 := pw + (1.0 - pw) * 0.5;
    if lower && phase < pw then
      (if phase > t1 then 2.0 * lib.sin(PI * (phase / pw - 0.5)) - 1.0 else -1.0)
    else if upper && phase >= pw then
      (if phase < t2 then 2.0 * lib.sin(PI * ((phase - pw) / (1.0 - pw) + 0.5)) - 1.0 else -1.0)
    else s
  }

  function HalfSineComp(osc: Oscillator, lower: bool, upper: bool, phase: real, c: real): real
    requires 0.0 <= phase < 1.0 && Defined(osc, HALF_SINE)
  {
    var pw, dt := osc.pulseWidth, osc.dt;
    var t1 := 0.5 * pw;
    var t2 := pw + (1.0 - pw) * 0.5;
    var c1 := if lower then c + 2.0 * PI * dt * BlampAt(t1 + 1.0 - phase, dt) else c;
    if upper then c1 + 2.0 * PI * dt * BlampAt(t2 + 1.0 - phase, dt) else c1
  }

  /** The samples `halfSineWave` leaves. */
  function HalfSineSamples(lib: Lib, osc: Oscillator, lower: bool, upper: bool, s0: seq<real>): (r: seq<real>)
    requires |s0| == WAVE_LEN
    ensures |r| == WAVE_LEN
  {
    seq(WAVE_LEN, k requires 0 <= k < WAVE_LEN => HalfSineSample(lib, osc, lower, upper, Phase(k), s0[k]))
  }

  /** The compensation `halfSineWave` leaves. */
  function HalfSineComps(osc: Oscillator, lower: bool, upper: bool, c0: seq<real>): (r: seq<real>)
    requires |c0| == WAVE_LEN && Defined(osc, HALF_SINE)
    ensures |r| == WAVE_LEN
  {
    seq(WAVE_LEN, k requires 0 <= k < WAVE_LEN => HalfSineComp(osc, lower, upper, Phase(k), c0[k]))
  }

  method HalfSineWave(lib: Lib, osc: Oscillator, lower: bool, upper: bool, samples: array<real>, compensation: array<real>)
    requires samples.Length == WAVE_LEN && compensation.Length == WAVE_LEN && samples != compensation
    requires Defined(osc, HALF_SINE)
    modifies samples, compensation
    ensures samples[..] == HalfSineSamples(lib, osc, lower, upper, old(samples[..]))
    ensures compensation[..] == HalfSineComps(osc, lower, upper, old(compensation[..]))
  {
    ghost var wantS := HalfSineSamples(lib, osc, lower, upper, samples[..]);
    ghost var wantC := HalfSineComps(osc, lower, upper, compensation[..]);
    for i := 0 to WAVE_LEN
      invariant forall k :: 0 <= k < i ==> samples[k] == wantS[k] && compensation[k] == wantC[k]
      invariant forall k :: i <= k < WAVE_LEN ==> samples[k] == old(samples[k]) && compensation[k] == old(compensation[k])
    {
      var phase := Phase(i);
      samples[i], compensation[i] := HalfSineSample(lib, osc, lower, upper, phase, samples[i]), HalfSineComp(osc, lower, upper, phase, compensation[i]);
    }
    assert samples[..] == wantS;
    assert compensation[..] == wantC;
  }


  // ---------------------------------------------------------------------
  // triangleWave

  /** The divisor `pulse_width - pulse_width * pulse_width` of triangle and tri-pulse. */
  lemma SpanPositive(pw: real)
    requires 0.0 < pw < 1.0
    ensures pw - pw * pw > 0.0
  {
    assert pw - pw * pw == pw * (1.0 - pw);
    MulPos(pw, 1.0 - pw);
  }

  function TriangleSample(osc: Oscillator, lower: bool, upper: bool, phase: real, s: real): real
    requires 0.0 <= phase < 1.0 && Defined(osc, TRIANGLE)
  {
    var pw := osc.pulseWidth;
    if lower && phase < pw then 2.0 * phase / pw - 1.0
    else if upper && phase >= pw then 1.0 - 2.0 * (phase - pw) / (1.0 - pw)
    else s
  }

  /** The compensation is assigned, not accumulated, and whatever the two flags. */
  function TriangleComp(osc: Oscillator, phase: real): real
    requires 0.0 <= phase < 1.0 && Defined(osc, TRIANGLE)
  {
    var pw, dt := osc.pulseWidth, osc.dt;
    var t1 := 0.0;
    var t2 := pw;
    SpanPositive(pw);
    dt / (pw - pw * pw) * (BlampAt(t1 + phase, dt) - BlampAt(t2 + 1.0 - phase, dt))
  }

  /** The samples `triangleWave` leaves. */
  function TriangleSamples(osc: Oscillator, lower: bool, upper: bool, s0: seq<real>): (r: seq<real>)
    requires |s0| == WAVE_LEN && Defined(osc, TRIANGLE)
    ensures |r| == WAVE_LEN
  {
    seq(WAVE_LEN, k requires 0 <= k < WAVE_LEN => TriangleSample(osc, lower, upper, Phase(k), s0[k]))
  }

  /** The compensation `triangleWave` leaves. */
  function TriangleComps(osc: Oscillator): (r: seq<real>)
    requires Defined(osc, TRIANGLE)
    ensures |r| == WAVE_LEN
  {
    seq(WAVE_LEN, k requires 0 <= k < WAVE_LEN => TriangleComp(osc, Phase(k)))
  }

  method TriangleWave(osc: Oscillator, lower: bool, upper: bool, samples: array<real>, compensation: array<real>)
    requires samples.Length == WAVE_LEN && compensation.Length == WAVE_LEN && samples != compensation
    requires Defined(osc, TRIANGLE)
    modifies samples, compensation
    ensures samples[..] == TriangleSamples(osc, lower, upper, old(samples[..]))
    ensures compensation[..] == TriangleComps(osc)
  {
    ghost var wantS := TriangleSamples(osc, lower, upper, samples[..]);
    ghost var wantC := TriangleComps(osc);
    for i := 0 to WAVE_LEN
      invariant forall k :: 0 <= k < i ==> samples[k] == wantS[k] && compensation[k] == wantC[k]
      invariant forall k :: i <= k < WAVE_LEN ==> samples[k] == old(samples[k])
    {
      var phase := Phase(i);
      samples[i], compensation[i] := TriangleSample(osc, lower, upper, phase, samples[i]), TriangleComp(osc, phase);
    }
    assert samples[..] == wantS;
    assert compensation[..] == wantC;
  }


  // ---------------------------------------------------------------------
  // triPulseWave

  function TriPulseSample(osc: Oscillator, lower: bool, upper: bool, phase: real, s: real): real
    requires 0.0 <= phase < 1.0 && Defined(osc, TRI_PULSE)
  {
    var pw := osc.pulseWidth;
    var t1 := 0.5 * pw;
    var t2 := pw;
    var t3 := pw + 0.5 * (1.0 - pw);
    var s1 := if lower && phase < t1 then -1.0
              else if lower && t1 <= phase < t2 then Rescalef(phase, t1, t2, -1.0, 1.0)
              else s;
    if upper && t2 <= phase < t3 then Rescalef(phase, t2, t3, 1.0, -1.0)
    else if upper && phase >= t3 then -1.0
    else s1
  }

  /** The base term is assigned whatever the flags; each flag adds its own term. */
  function TriPulseComp(osc: Oscillator, lower: bool, upper: bool, phase: real): real
    requires 0.0 <= phase < 1.0 && Defined(osc, TRI_PULSE)
  {
    var pw, dt := osc.pulseWidth, osc.dt;
    var t1 := 0.5 * pw;
    var t3 := pw + 0.5 * (1.0 - pw);
    SpanPositive(pw);
    var g := dt / (pw - pw * pw);
    var c0 := -dt / (pw - pw * pw) * BlampAt(pw + 1.0 - phase, dt);
    var c1 := if lower then c0 + g * BlampAt(1.0 + t1 - phase, dt) else c0;
    if upper then c1 + g * BlampAt(1.0 + t3 - phase, dt) else c1
  }

  /** The samples `triPulseWave` leaves. */
  function TriPulseSamples(osc: Oscillator, lower: bool, upper: bool, s0: seq<real>): (r: seq<real>)
    requires |s0| == WAVE_LEN && Defined(osc, TRI_PULSE)
    ensures |r| == WAVE_LEN
  {
    seq(WAVE_LEN, k requires 0 <= k < WAVE_LEN => TriPulseSample(osc, lower, upper, Phase(k), s0[k]))
  }

  /** The compensation `triPulseWave` leaves. */
  function TriPulseComps(osc: Oscillator, lower: bool, upper: bool): (r: seq<real>)
    requires Defined(osc, TRI_PULSE)
    ensures |r| == WAVE_LEN
  {
    seq(WAVE_LEN, k requires 0 <= k < WAVE_LEN => TriPulseComp(osc, lower, upper, Phase(k)))
  }

  method TriPulseWave(osc: Oscillator, lower: bool, upper: bool, samples: array<real>, compensation: array<real>)
    requires samples.Length == WAVE_LEN && compensation.Length == WAVE_LEN && samples != compensation
    requires Defined(osc, TRI_PULSE)
    modifies samples, compensation
    ensures samples[..] == TriPulseSamples(osc, lower, upper, old(samples[..]))
    ensures compensation[..] == TriPulseComps(osc, lower, upper)
  {
    ghost var wantS := TriPulseSamples(osc, lower, upper, samples[..]);
    ghost var wantC := TriPulseComps(osc, lower, upper);
    for i := 0 to WAVE_LEN
      invariant forall k :: 0 <= k < i ==> samples[k] == wantS[k] && compensation[k] == wantC[k]
      invariant forall k :: i <= k < WAVE_LEN ==> samples[k] == old(samples[k])
    {
      var phase := Phase(i);
      samples[i], compensation[i] := TriPulseSample(osc, lower, upper, phase, samples[i]), TriPulseComp(osc, lower, upper, phase);
    }
    assert samples[..] == wantS;
    assert compensation[..] == wantC;
  }


  // ---------------------------------------------------------------------
  // squareWave

  function SquareSample(osc: Oscillator, lower: bool, upper: bool, phase: real, s: real): real
  {
    var pw := osc.pulseWidth;
    var t1 := 0.5 * pw;
    var t2 := pw + (1.0 - pw) * 0.5;
    if lower && phase < pw then (if phase < t1 then -1.0 else 1.0)
    else if upper && phase >= pw then (if phase < t2 then 1.0 else -1.0)
    else s
  }

  function SquareComp(osc: Oscillator, lower: bool, upper: bool, phase: real, c: real): real
    requires 0.0 <= phase < 1.0 && Defined(osc, SQUARE)
  {
    var pw, dt := osc.pulseWidth, osc.dt;
    var t1 := 0.5 * pw;
    var t2 := pw + (1.0 - pw) * 0.5;
    var c1 := if lower then c + BlepAt(1.0 - t1 + phase, dt) else c;
    if upper then c1 - BlepAt(1.0 - t2 + phase, dt) else c1
  }

  /** The samples `squareWave` leaves. */
  function SquareSamples(osc: Oscillator, lower: bool, upper: bool, s0: seq<real>): (r: seq<real>)
    requires |s0| == WAVE_LEN
    ensures |r| == WAVE_LEN
  {
    seq(WAVE_LEN, k requires 0 <= k < WAVE_LEN => SquareSample(osc, lower, upper, Phase(k), s0[k]))
  }

  /** The compensation `squareWave` leaves. */
  function SquareComps(osc: Oscillator, lower: bool, upper: bool, c0: seq<real>): (r: seq<real>)
    requires |c0| == WAVE_LEN && Defined(osc, SQUARE)
    ensures |r| == WAVE_LEN
  {
    seq(WAVE_LEN, k requires 0 <= k < WAVE_LEN => SquareComp(osc, lower, upper, Phase(k), c0[k]))
  }

  method SquareWave(osc: Oscillator, lower: bool, upper: bool, samples: array<real>, compensation: array<real>)
    requires samples.Length == WAVE_LEN && compensation.Length == WAVE_LEN && samples != compensation
    requires Defined(osc, SQUARE)
    modifies samples, compensation
    ensures samples[..] == SquareSamples(osc, lower, upper, old(samples[..]))
    ensures compensation[..] == SquareComps(osc, lower, upper, old(compensation[..]))
  {
    ghost var wantS := SquareSamples(osc, lower, upper, samples[..]);
    ghost var wantC := SquareComps(osc, lower, upper, compensation[..]);
    for i := 0 to WAVE_LEN
      invariant forall k :: 0 <= k < i ==> samples[k] == wantS[k] && compensation[k] == wantC[k]
      invariant forall k :: i <= k < WAVE_LEN ==> samples[k] == old(samples[k]) && compensation[k] == old(compensation[k])
    {
      var phase := Phase(i);
      samples[i], compensation[i] := SquareSample(osc, lower, upper, phase, samples[i]), SquareComp(osc, lower, upper, phase, compensation[i]);
    }
    assert samples[..] == wantS;
    assert compensation[..] == wantC;
  }


  // ---------------------------------------------------------------------
  // rectangleWave

  function RectangleSample(osc: Oscillator, lower: bool, upper: bool, phase: real, s: real): real
  {
    var pw := osc.pulseWidth;
    var t1 := 0.25 * pw;
    var t2 := pw - 0.25 * pw;
    var t3 := pw + (1.0 - pw) * 0.25;
    var t4 := 1.0 - (1.0 - pw) * 0.25;
    if lower && phase < pw then (if phase < t1 then -1.0 else if phase >= t2 then 1.0 else 0.0)
    else if upper && phase >= pw then (if phase < t3 then 1.0 else if phase >= t4 then -1.0 else 0.0)
    else s
  }

  function RectangleComp(osc: Oscillator, lower: bool, upper: bool, phase: real, c: real): real
    requires 0.0 <= phase < 1.0 && Defined(osc, RECTANGLE)
  {
    var pw, dt := osc.pulseWidth, osc.dt;
    var t1 := 0.25 * pw;
    var t2 := pw - 0.25 * pw;
    var t3 := pw + (1.0 - pw) * 0.25;
    var t4 := 1.0 - (1.0 - pw) * 0.25;
    var c1 := if lower then c + BlepAt(1.0 - t1 + phase, dt) * 0.5 + BlepAt(1.0 - t2 + phase, dt) * 0.5 else c;
    if upper then c1 - BlepAt(1.0 - t3 + phase, dt) * 0.5 - BlepAt(1.0 - t4 + phase, dt) * 0.5 else c1
  }

  /** The samples `rectangleWave` leaves. */
  function RectangleSamples(osc: Oscillator, lower: bool, upper: bool, s0: seq<real>): (r: seq<real>)
    requires |s0| == WAVE_LEN
    ensures |r| == WAVE_LEN
  {
    seq(WAVE_LEN, k requires 0 <= k < WAVE_LEN => RectangleSample(osc, lower, upper, Phase(k), s0[k]))
  }

  /** The compensation `rectangleWave` leaves. */
  function RectangleComps(osc: Oscillator, lower: bool, upper: bool, c0: seq<real>): (r: seq<real>)
    requires |c0| == WAVE_LEN && Defined(osc, RECTANGLE)
    ensures |r| == WAVE_LEN
  {
    seq(WAVE_LEN, k requires 0 <= k < WAVE_LEN => RectangleComp(osc, lower, upper, Phase(k), c0[k]))
  }

  method RectangleWave(osc: Oscillator, lower: bool, upper: bool, samples: array<real>, compensation: array<real>)
    requires samples.Length == WAVE_LEN && compensation.Length == WAVE_LEN && samples != compensation
    requires Defined(osc, RECTANGLE)
    modifies samples, compensation
    ensures samples[..] == RectangleSamples(osc, lower, upper, old(samples[..]))
    ensures compensation[..] == RectangleComps(osc, lower, upper, old(compensation[..]))
  {
    ghost var wantS := RectangleSamples(osc, lower, upper, samples[..]);
    ghost var wantC := RectangleComps(osc, lower, upper, compensation[..]);
    for i := 0 to WAVE_LEN
      invariant forall k :: 0 <= k < i ==> samples[k] == wantS[k] && compensation[k] == wantC[k]
      invariant forall k :: i <= k < WAVE_LEN ==> samples[k] == old(samples[k]) && compensation[k] == old(compensation[k])
    {
      var phase := Phase(i);
      samples[i], compensation[i] := RectangleSample(osc, lower, upper, phase, samples[i]), RectangleComp(osc, lower, upper, phase, compensation[i]);
    }
    assert samples[..] == wantS;
    assert compensation[..] == wantC;
  }


  // ---------------------------------------------------------------------
  // trapezoidWave

  function TrapezoidSample(osc: Oscillator, lower: bool, upper: bool, phase: real, s: real): real
    requires Defined(osc, TRAPEZOID)
  {
    var pw := osc.pulseWidth;
    var t1 := 0.25 * pw;
    var t2 := 0.25 + 0.75 * pw;
    if lower && phase < pw then Clampf(Rescalef(phase, t1, pw - t1, -1.0, 1.0), -1.0, 1.0)
    else if upper && phase >= pw then Clampf(Rescalef(phase, t2, 1.0 + pw - t2, 1.0, -1.0), -1.0, 1.0)
    else s
  }

  function TrapezoidComp(osc: Oscillator, lower: bool, upper: bool, phase: real, c: real): real
    requires 0.0 <= phase < 1.0 && Defined(osc, TRAPEZOID)
  {
    var pw, dt := osc.pulseWidth, osc.dt;
    var t1 := 0.25 * pw;
    var t2 := 0.25 + 0.75 * pw;
    var c1 := if lower then c + 2.0 / pw * dt * (BlampAt(1.0 - t1 + phase, dt) - BlampAt(1.0 + pw - t1 - phase, dt)) else c;
    if upper then c1 + 2.0 / (1.0 - pw) * dt * (BlampAt(1.0 - pw + t2 + phase, dt) - BlampAt(1.0 - t2 + phase, dt)) else c1
  }

  /** The samples `trapezoidWave` leaves. */
  function TrapezoidSamples(osc: Oscillator, lower: bool, upper: bool, s0: seq<real>): (r: seq<real>)
    requires |s0| == WAVE_LEN && Defined(osc, TRAPEZOID)
    ensures |r| == WAVE_LEN
  {
    seq(WAVE_LEN, k requires 0 <= k < WAVE_LEN => TrapezoidSample(osc, lower, upper, Phase(k), s0[k]))
  }

  /** The compensation `trapezoidWave` leaves. */
  function TrapezoidComps(osc: Oscillator, lower: bool, upper: bool, c0: seq<real>): (r: seq<real>)
    requires |c0| == WAVE_LEN && Defined(osc, TRAPEZOID)
    ensures |r| == WAVE_LEN
  {
    seq(WAVE_LEN, k requires 0 <= k < WAVE_LEN => TrapezoidComp(osc, lower, upper, Phase(k), c0[k]))
  }

  method TrapezoidWave(osc: Oscillator, lower: bool, upper: bool, samples: array<real>, compensation: array<real>)
    requires samples.Length == WAVE_LEN && compensation.Length == WAVE_LEN && samples != compensation
    requires Defined(osc, TRAPEZOID)
    modifies samples, compensation
    ensures samples[..] == TrapezoidSamples(osc, lower, upper, old(samples[..]))
    ensures compensation[..] == TrapezoidComps(osc, lower, upper, old(compensation[..]))
  {
    ghost var wantS := TrapezoidSamples(osc, lower, upper, samples[..]);
    ghost var wantC := TrapezoidComps(osc, lower, upper, compensation[..]);
    for i := 0 to WAVE_LEN
      invariant forall k :: 0 <= k < i ==> samples[k] == wantS[k] && compensation[k] == wantC[k]
      invariant forall k :: i <= k < WAVE_LEN ==> samples[k] == old(samples[k]) && compensation[k] == old(compensation[k])
    {
      var phase := Phase(i);
      samples[i], compensation[i] := TrapezoidSample(osc, lower, upper, phase, samples[i]), TrapezoidComp(osc, lower, upper, phase, compensation[i]);
    }
    assert samples[..] == wantS;
    assert compensation[..] == wantC;
  }


  // ---------------------------------------------------------------------
  // getWave

  /** The raw samples the generator of `shape` leaves; an unknown shape leaves them as they were. */
  function Generated(lib: Lib, osc: Oscillator, shape: int, lower: bool, upper: bool, s0: seq<real>): (r: seq<real>)
    requires |s0| == WAVE_LEN && Defined(osc, shape)
    ensures |r| == WAVE_LEN
  {
    if shape == SINE then SineSamples(lib, osc, lower, upper, s0)
    else if shape == HALF_SINE then HalfSineSamples(lib, osc, lower, upper, s0)
    else if shape == TRIANGLE then TriangleSamples(osc, lower, upper, s0)
    else if shape == TRI_PULSE then TriPulseSamples(osc, lower, upper, s0)
    else if shape == SQUARE then SquareSamples(osc, lower, upper, s0)
    else if shape == RECTANGLE then RectangleSamples(osc, lower, upper, s0)
    else if shape == TRAPEZOID then TrapezoidSamples(osc, lower, upper, s0)
    else s0
  }

  /** The compensation the generator of `shape` leaves; sine and unknown shapes leave it as it was. */
  function Compensated(osc: Oscillator, shape: int, lower: bool, upper: bool, c0: seq<real>): (r: seq<real>)
    requires |c0| == WAVE_LEN && Defined(osc, shape)
    ensures |r| == WAVE_LEN
  {
    if shape == HALF_SINE then HalfSineComps(osc, lower, upper, c0)
    else if shape == TRIANGLE then TriangleComps(osc)
    else if shape == TRI_PULSE then TriPulseComps(osc, lower, upper)
    else if shape == SQUARE then SquareComps(osc, lower, upper, c0)
    else if shape == RECTANGLE then RectangleComps(osc, lower, upper, c0)
    else if shape == TRAPEZOID then TrapezoidComps(osc, lower, upper, c0)
    else c0
  }

  /** Runs the generator of `shape`, then normalizes the raw samples (not the compensation) to [-1, 1]. */
  method GetWave(lib: Lib, osc: Oscillator, shape: int, lower: bool, upper: bool, samples: array<real>, compensation: array<real>)
    requires samples.Length == WAVE_LEN && compensation.Length == WAVE_LEN && samples != compensation
    requires Defined(osc, shape)
    modifies samples, compensation
    ensures samples[..] == Normalized(lib, Generated(lib, osc, shape, lower, upper, old(samples[..])), -1.0, 1.0, 0.0)
    ensures compensation[..] == Compensated(osc, shape, lower, upper, old(compensation[..]))
  {
    if shape == SINE {
      SineWave(lib, osc, lower, upper, samples);
    } else if shape == HALF_SINE {
      HalfSineWave(lib, osc, lower, upper, samples, compensation);
    } else if shape == TRIANGLE {
      TriangleWave(osc, lower, upper, samples, compensation);
    } else if shape == TRI_PULSE {
      TriPulseWave(osc, lower, upper, samples, compensation);
    } else if shape == SQUARE {
      SquareWave(osc, lower, upper, samples, compensation);
    } else if shape == RECTANGLE {
      RectangleWave(osc, lower, upper, samples, compensation);
    } else if shape == TRAPEZOID {
      TrapezoidWave(osc, lower, upper, samples, compensation);
    }
    NormalizeArray(lib, samples, -1.0, 1.0, 0.0);
  }

  // ---------------------------------------------------------------------
  // render

  /** What `getWave` leaves in zeroed scratch buffers: the normalized samples and the compensation. */
  function WaveOf(lib: Lib, osc: Oscillator, shape: int, lower: bool, upper: bool): (r: seq<real>)
    requires Defined(osc, shape)
    ensures |r| == WAVE_LEN
  {
    Normalized(lib, Generated(lib, osc, shape, lower, upper, Zeros()), -1.0, 1.0, 0.0)
  }

  function CompOf(osc: Oscillator, shape: int, lower: bool, upper: bool): (r: seq<real>)
    requires Defined(osc, shape)
    ensures |r| == WAVE_LEN
  {
    Compensated(osc, shape, lower, upper, Zeros())
  }

  /** Element by element, the cross-fade from shape a (samples plus compensation) to shape b. */
  function Blend(a: seq<real>, ca: seq<real>, b: seq<real>, cb: seq<real>, ratio: real): (r: seq<real>)
    requires |a| == WAVE_LEN && |ca| == WAVE_LEN && |b| == WAVE_LEN && |cb| == WAVE_LEN
    ensures |r| == WAVE_LEN
  {
    seq(WAVE_LEN, i requires 0 <= i < WAVE_LEN => Crossf(a[i] + ca[i], b[i] + cb[i], ratio))
  }

  /** The cross-fade of two shapes, each drawn in the halves that are on. */
  function ShapeBlend(lib: Lib, osc: Oscillator, a: int, b: int, ratio: real, lower: bool, upper: bool): (r: seq<real>)
    requires Defined(osc, a) && Defined(osc, b)
    ensures |r| == WAVE_LEN
  {
    Blend(WaveOf(lib, osc, a, lower, upper), CompOf(osc, a, lower, upper),
          WaveOf(lib, osc, b, lower, upper), CompOf(osc, b, lower, upper), ratio)
  }

  /** Element by element, the sum of two buffers. */
  function Sum(a: seq<real>, b: seq<real>): (r: seq<real>)
    requires |a| == WAVE_LEN && |b| == WAVE_LEN
    ensures |r| == WAVE_LEN
  {
    seq(WAVE_LEN, i requires 0 <= i < WAVE_LEN => a[i] + b[i])
  }

  /** Both pairs and ratios equal: one blend over the full cycle; otherwise the lower-half blend plus the upper-half blend. */
  function Rendered(lib: Lib, osc: Oscillator, lowerA: int, lowerB: int, lowerRatio: real,
                    upperA: int, upperB: int, upperRatio: real): (r: seq<real>)
    requires Defined(osc, lowerA) && Defined(osc, lowerB) && Defined(osc, upperA) && Defined(osc, upperB)
    ensures |r| == WAVE_LEN
  {
    if lowerA == upperA && lowerB == upperB && lowerRatio == upperRatio then
      ShapeBlend(lib, osc, lowerA, lowerB, lowerRatio, true, true)
    else
      Sum(ShapeBlend(lib, osc, lowerA, lowerB, lowerRatio, true, false),
          ShapeBlend(lib, osc, upperA, upperB, upperRatio, false, true))
  }

  /** `samples[i] = crossf(...)` for every i. */
  method BlendInto(a: array<real>, ca: array<real>, b: array<real>, cb: array<real>, ratio: real, samples: array<real>)
    requires a.Length == WAVE_LEN && ca.Length == WAVE_LEN && b.Length == WAVE_LEN && cb.Length == WAVE_LEN
    requires samples.Length == WAVE_LEN
    requires samples != a && samples != ca && samples != b && samples != cb
    modifies samples
    ensures samples[..] == Blend(a[..], ca[..], b[..], cb[..], ratio)
  {
    ghost var want := Blend(a[..], ca[..], b[..], cb[..], ratio);
    for i := 0 to WAVE_LEN
      invariant forall k :: 0 <= k < i ==> samples[k] == want[k]
    {
      samples[i] := Crossf(a[i] + ca[i], b[i] + cb[i], ratio);
    }
    assert samples[..] == want;
  }

  /** `samples[i] += crossf(...)` for every i. */
  method AddBlendInto(a: array<real>, ca: array<real>, b: array<real>, cb: array<real>, ratio: real, samples: array<real>)
    requires a.Length == WAVE_LEN && ca.Length == WAVE_LEN && b.Length == WAVE_LEN && cb.Length == WAVE_LEN
    requires samples.Length == WAVE_LEN
    requires samples != a && samples != ca && samples != b && samples != cb
    modifies samples
    ensures samples[..] == Sum(old(samples[..]), Blend(a[..], ca[..], b[..], cb[..], ratio))
  {
    ghost var want := Sum(samples[..], Blend(a[..], ca[..], b[..], cb[..], ratio));
    for i := 0 to WAVE_LEN
      invariant forall k :: 0 <= k < i ==> samples[k] == want[k]
      invariant forall k :: i <= k < WAVE_LEN ==> samples[k] == old(samples[k])
    {
      samples[i] := samples[i] + Crossf(a[i] + ca[i], b[i] + cb[i], ratio);
    }
    assert samples[..] == want;
  }

  /** `memset(a, 0, ...)` */
  method Clear(a: array<real>)
    requires a.Length == WAVE_LEN
    modifies a
    ensures a[..] == Zeros()
  {
    forall k | 0 <= k < a.Length {
      a[k] := 0.0;
    }
  }

  /** The scratch buffers of `render`: four distinct arrays of WAVE_LEN elements. */
  predicate Scratch(samplesA: array<real>, compensationA: array<real>, samplesB: array<real>, compensationB: array<real>)
  {
    samplesA.Length == WAVE_LEN && compensationA.Length == WAVE_LEN &&
    samplesB.Length == WAVE_LEN && compensationB.Length == WAVE_LEN &&
    samplesA != compensationA && samplesA != samplesB && samplesA != compensationB &&
    compensationA != samplesB && compensationA != compensationB && samplesB != compensationB
  }

  /** The four `memset` calls between the two halves. */
  method ClearScratch(samplesA: array<real>, compensationA: array<real>, samplesB: array<real>, compensationB: array<real>)
    requires Scratch(samplesA, compensationA, samplesB, compensationB)
    modifies samplesA, compensationA, samplesB, compensationB
    ensures samplesA[..] == Zeros() && compensationA[..] == Zeros()
    ensures samplesB[..] == Zeros() && compensationB[..] == Zeros()
  {
    Clear(samplesA);
    Clear(samplesB);
    Clear(compensationA);
    Clear(compensationB);
  }

  /** Draws both shapes of a pair over the halves that are on, in zeroed scratch buffers, and cross-fades them into `samples` (`add` chooses `+=` over `=`). */
  method BlendPair(lib: Lib, osc: Oscillator, a: int, b: int, ratio: real, lower: bool, upper: bool, add: bool,
                   samplesA: array<real>, compensationA: array<real>, samplesB: array<real>, compensationB: array<real>,
                   samples: array<real>)
    requires Scratch(samplesA, compensationA, samplesB, compensationB) && samples.Length == WAVE_LEN
    requires samples != samplesA && samples != compensationA && samples != samplesB && samples != compensationB
    requires samplesA[..] == Zeros() && compensationA[..] == Zeros()
    requires samplesB[..] == Zeros() && compensationB[..] == Zeros()
    requires Defined(osc, a) && Defined(osc, b)
    modifies samplesA, compensationA, samplesB, compensationB, samples
    ensures !add ==> samples[..] == ShapeBlend(lib, osc, a, b, ratio, lower, upper)
    ensures add ==> samples[..] == Sum(old(samples[..]), ShapeBlend(lib, osc, a, b, ratio, lower, upper))
  {
    GetWave(lib, osc, a, lower, upper, samplesA, compensationA);
    GetWave(lib, osc, b, lower, upper, samplesB, compensationB);
    if add {
      AddBlendInto(samplesA, compensationA, samplesB, compensationB, ratio, samples);
    } else {
      BlendInto(samplesA, compensationA, samplesB, compensationB, ratio, samples);
    }
  }

  /** The fast path: both shapes drawn over the full cycle, once. */
  method RenderCycle(lib: Lib, osc: Oscillator, a: int, b: int, ratio: real, samples: array<real>)
    requires samples.Length == WAVE_LEN
    requires Defined(osc, a) && Defined(osc, b)
    modifies samples
    ensures samples[..] == ShapeBlend(lib, osc, a, b, ratio, true, true)
  {
    var compensationA := new real[WAVE_LEN](_ => 0.0);
    var compensationB := new real[WAVE_LEN](_ => 0.0);
    var samplesA := new real[WAVE_LEN](_ => 0.0);
    var samplesB := new real[WAVE_LEN](_ => 0.0);
    assert samplesA[..] == Zeros() && samplesB[..] == Zeros();
    assert compensationA[..] == Zeros() && compensationB[..] == Zeros();
    BlendPair(lib, osc, a, b, ratio, true, true, false, samplesA, compensationA, samplesB, compensationB, samples);
  }

  /** The two-half path: the lower-half blend, then the upper-half blend added on, in the same scratch buffers zeroed again. */
  method RenderHalves(lib: Lib, osc: Oscillator, lowerA: int, lowerB: int, lowerRatio: real,
                      upperA: int, upperB: int, upperRatio: real, samples: array<real>)
    requires samples.Length == WAVE_LEN
    requires Defined(osc, lowerA) && Defined(osc, lowerB) && Defined(osc, upperA) && Defined(osc, upperB)
    modifies samples
    ensures samples[..] == Sum(ShapeBlend(lib, osc, lowerA, lowerB, lowerRatio, true, false),
                               ShapeBlend(lib, osc, upperA, upperB, upperRatio, false, true))
  {
    var compensationA := new real[WAVE_LEN](_ => 0.0);
    var compensationB := new real[WAVE_LEN](_ => 0.0);
    var samplesA := new real[WAVE_LEN](_ => 0.0);
    var samplesB := new real[WAVE_LEN](_ => 0.0);
    assert samplesA[..] == Zeros() && samplesB[..] == Zeros();
    assert compensationA[..] == Zeros() && compensationB[..] == Zeros();
    BlendPair(lib, osc, lowerA, lowerB, lowerRatio, true, false, false, samplesA, compensationA, samplesB, compensationB, samples);
    ClearScratch(samplesA, compensationA, samplesB, compensationB);
    BlendPair(lib, osc, upperA, upperB, upperRatio, false, true, true, samplesA, compensationA, samplesB, compensationB, samples);
  }

  method Render(lib: Lib, osc: Oscillator, lowerA: int, lowerB: int, lowerRatio: real,
                upperA: int, upperB: int, upperRatio: real, samples: array<real>)
    requires samples.Length == WAVE_LEN
    requires Defined(osc, lowerA) && Defined(osc, lowerB) && Defined(osc, upperA) && Defined(osc, upperB)
    modifies samples
    ensures samples[..] == Rendered(lib, osc, lowerA, lowerB, lowerRatio, upperA, upperB, upperRatio)
  {
    if lowerA == upperA && lowerB == upperB && lowerRatio == upperRatio {
      RenderCycle(lib, osc, lowerA, lowerB, lowerRatio, samples);
    } else {
      RenderHalves(lib, osc, lowerA, lowerB, lowerRatio, upperA, upperB, upperRatio, samples);
    }
  }


  // ---------------------------------------------------------------------
  // Properties of the shapes

  /** A rescale over an increasing source interval is monotone: increasing when yMin <= yMax, decreasing otherwise. */
  lemma RescalefMonotone(x1: real, x2: real, xMin: real, xMax: real, yMin: real, yMax: real)
    requires xMin < xMax && x1 <= x2
    ensures yMin <= yMax ==> Rescalef(x1, xMin, xMax, yMin, yMax) <= Rescalef(x2, xMin, xMax, yMin, yMax)
    ensures yMax <= yMin ==> Rescalef(x2, xMin, xMax, yMin, yMax) <= Rescalef(x1, xMin, xMax, yMin, yMax)
  {
    var d := xMax - xMin;
    var f1, f2 := (x1 - xMin) / d, (x2 - xMin) / d;
    if x1 < x2 {
      DivLt(x1 - xMin, x2 - xMin, d);
    }
    var e := yMax - yMin;
    if 0.0 <= e {
      MulNonneg(f2 - f1, e);
      assert (f2 - f1) * e == f2 * e - f1 * e;
    } else {
      MulNonneg(f2 - f1, -e);
      assert (f2 - f1) * -e == f1 * e - f2 * e;
    }
  }

  /** Square writes only -1 and 1, and only in a half that is on; it switches at t1 in the lower half and at t2 in the upper. */
  lemma SquareLevels(osc: Oscillator, lower: bool, upper: bool, phase: real, s: real)
    ensures var r := SquareSample(osc, lower, upper, phase, s);
            (Drawn(osc, lower, upper, phase) ==> r == -1.0 || r == 1.0) &&
            (!Drawn(osc, lower, upper, phase) ==> r == s)
    ensures lower && phase < osc.pulseWidth ==>
              (SquareSample(osc, lower, upper, phase, s) == 1.0 <==> phase >= 0.5 * osc.pulseWidth)
    ensures upper && phase >= osc.pulseWidth ==>
              (SquareSample(osc, lower, upper, phase, s) == 1.0 <==> phase < osc.pulseWidth + (1.0 - osc.pulseWidth) * 0.5)
  {
  }

  /** With both halves on and 0 <= pw <= 1, the square is high exactly on [t1, t2) and low elsewhere. */
  lemma SquareCycle(osc: Oscillator, phase: real, s: real)
    requires 0.0 <= osc.pulseWidth <= 1.0
    ensures var t1, t2 := 0.5 * osc.pulseWidth, osc.pulseWidth + (1.0 - osc.pulseWidth) * 0.5;
            SquareSample(osc, true, true, phase, s) == (if t1 <= phase < t2 then 1.0 else -1.0)
  {
  }

  /** Rectangle writes only -1, 0 and 1, and only in a half that is on. */
  lemma RectangleLevels(osc: Oscillator, lower: bool, upper: bool, phase: real, s: real)
    ensures var r := RectangleSample(osc, lower, upper, phase, s);
            (Drawn(osc, lower, upper, phase) ==> r == -1.0 || r == 0.0 || r == 1.0) &&
            (!Drawn(osc, lower, upper, phase) ==> r == s)
  {
  }

  /** Triangle samples lie in [-1, 1]. */
  lemma TriangleBounds(osc: Oscillator, lower: bool, upper: bool, phase: real, s: real)
    requires 0.0 <= phase < 1.0 && Defined(osc, TRIANGLE)
    ensures Drawn(osc, lower, upper, phase) ==> -1.0 <= TriangleSample(osc, lower, upper, phase, s) <= 1.0
    ensures !Drawn(osc, lower, upper, phase) ==> TriangleSample(osc, lower, upper, phase, s) == s
  {
    var pw := osc.pulseWidth;
    if lower && phase < pw {
      FractionBounds(phase, pw);
      TwiceFraction(phase, pw);
      assert TriangleSample(osc, lower, upper, phase, s) == 2.0 * (phase / pw) - 1.0;
    } else if upper && phase >= pw {
      FractionBounds(phase - pw, 1.0 - pw);
      TwiceFraction(phase - pw, 1.0 - pw);
      assert TriangleSample(osc, lower, upper, phase, s) == 1.0 - 2.0 * ((phase - pw) / (1.0 - pw));
    }
  }

  /** Triangle rises strictly before the pulse width and falls strictly after it. */
  lemma TriangleRisesFalls(osc: Oscillator, p: real, q: real, s: real, s': real)
    requires 0.0 <= p < q < 1.0 && Defined(osc, TRIANGLE)
    ensures q < osc.pulseWidth ==> TriangleSample(osc, true, true, p, s) < TriangleSample(osc, true, true, q, s')
    ensures osc.pulseWidth <= p ==> TriangleSample(osc, true, true, q, s') < TriangleSample(osc, true, true, p, s)
  {
    var pw := osc.pulseWidth;
    if q < pw {
      DivLt(2.0 * p, 2.0 * q, pw);
    }
    if pw <= p {
      DivLt(p - pw, q - pw, 1.0 - pw);
      assert 2.0 * (p - pw) / (1.0 - pw) == 2.0 * ((p - pw) / (1.0 - pw));
      assert 2.0 * (q - pw) / (1.0 - pw) == 2.0 * ((q - pw) / (1.0 - pw));
    }
  }

  /** Tri-pulse samples lie in [-1, 1]. */
  lemma TriPulseBounds(osc: Oscillator, lower: bool, upper: bool, phase: real, s: real)
    requires 0.0 <= phase < 1.0 && Defined(osc, TRI_PULSE)
    ensures Drawn(osc, lower, upper, phase) ==> -1.0 <= TriPulseSample(osc, lower, upper, phase, s) <= 1.0
    ensures !Drawn(osc, lower, upper, phase) ==> TriPulseSample(osc, lower, upper, phase, s) == s
  {
    var pw := osc.pulseWidth;
    var t1, t3 := 0.5 * pw, pw + 0.5 * (1.0 - pw);
    if t1 <= phase < pw {
      RescalefBounds(phase, t1, pw, -1.0, 1.0);
    }
    if pw <= phase < t3 {
      RescalefAffine(phase, pw, t3, 1.0, -1.0);
      RescalefMonotone(pw, phase, pw, t3, 1.0, -1.0);
      RescalefMonotone(phase, t3, pw, t3, 1.0, -1.0);
    }
  }

  /** Tri-pulse never falls before the pulse width and never rises after it. */
  lemma TriPulseRisesFalls(osc: Oscillator, p: real, q: real, s: real, s': real)
    requires 0.0 <= p <= q < 1.0 && Defined(osc, TRI_PULSE)
    ensures q < osc.pulseWidth ==> TriPulseSample(osc, true, true, p, s) <= TriPulseSample(osc, true, true, q, s')
    ensures osc.pulseWidth <= p ==> TriPulseSample(osc, true, true, q, s') <= TriPulseSample(osc, true, true, p, s)
  {
    var pw := osc.pulseWidth;
    var t1, t3 := 0.5 * pw, pw + 0.5 * (1.0 - pw);
    if q < pw {
      if t1 <= p {
        RescalefMonotone(p, q, t1, pw, -1.0, 1.0);
      } else if t1 <= q {
        RescalefBounds(q, t1, pw, -1.0, 1.0);
      }
    }
    if pw <= p {
      if q < t3 {
        RescalefMonotone(p, q, pw, t3, 1.0, -1.0);
      } else if p < t3 {
        RescalefAffine(p, pw, t3, 1.0, -1.0);
        RescalefMonotone(p, t3, pw, t3, 1.0, -1.0);
      }
    }
  }

  /** Trapezoid samples are clamped to [-1, 1]. */
  lemma TrapezoidClamped(osc: Oscillator, lower: bool, upper: bool, phase: real, s: real)
    requires Defined(osc, TRAPEZOID)
    ensures Drawn(osc, lower, upper, phase) ==> -1.0 <= TrapezoidSample(osc, lower, upper, phase, s) <= 1.0
    ensures !Drawn(osc, lower, upper, phase) ==> TrapezoidSample(osc, lower, upper, phase, s) == s
  {
  }

  /** Every generator leaves the samples of a half that is off as they were; an unknown shape leaves all of them. */
  lemma GeneratedKeepsUndrawn(lib: Lib, osc: Oscillator, shape: int, lower: bool, upper: bool, s0: seq<real>)
    requires |s0| == WAVE_LEN && Defined(osc, shape)
    ensures forall k :: 0 <= k < WAVE_LEN && !Drawn(osc, lower, upper, Phase(k)) ==>
              Generated(lib, osc, shape, lower, upper, s0)[k] == s0[k]
    ensures !(0 <= shape < WAVE_SHAPES_LEN) ==> Generated(lib, osc, shape, lower, upper, s0) == s0
  {
  }

  /**
   * With both halves off, every shape but triangle and tri-pulse leaves the
   * compensation as it was: the others only accumulate into it per half.
   */
  lemma CompensationAccumulates(osc: Oscillator, shape: int, c0: seq<real>)
    requires |c0| == WAVE_LEN && Defined(osc, shape)
    requires shape != TRIANGLE && shape != TRI_PULSE
    ensures Compensated(osc, shape, false, false, c0) == c0
  {
    var r := Compensated(osc, shape, false, false, c0);
    assert forall k :: 0 <= k < WAVE_LEN ==> r[k] == c0[k];
  }

  /**
   * Triangle and tri-pulse assign their compensation instead of adding to it,
   * so the old compensation is lost; triangle's does not even depend on which
   * halves are on.
   */
  lemma CompensationAssigned(osc: Oscillator, shape: int, lower: bool, upper: bool, c0: seq<real>, c1: seq<real>)
    requires |c0| == WAVE_LEN && |c1| == WAVE_LEN && Defined(osc, shape)
    requires shape == TRIANGLE || shape == TRI_PULSE
    ensures Compensated(osc, shape, lower, upper, c0) == Compensated(osc, shape, lower, upper, c1)
    ensures shape == TRIANGLE ==> Compensated(osc, shape, lower, upper, c0) == Compensated(osc, shape, true, true, c1)
  {
  }

  /** After `getWave` the samples lie in [-1, 1], and a flat raw wave leaves all zeros. */
  lemma GetWaveUnit(lib: Lib, osc: Oscillator, shape: int, lower: bool, upper: bool, s0: seq<real>)
    requires |s0| == WAVE_LEN && Defined(osc, shape)
    ensures var g := Generated(lib, osc, shape, lower, upper, s0);
            var n := Normalized(lib, g, -1.0, 1.0, 0.0);
            |n| == WAVE_LEN &&
            (forall i :: 0 <= i < WAVE_LEN ==> -1.0 <= n[i] <= 1.0) &&
            (!IsSpread(g) ==> forall i :: 0 <= i < WAVE_LEN ==> n[i] == 0.0)
  {
    var g := Generated(lib, osc, shape, lower, upper, s0);
    NormalizedShape(lib, g, -1.0, 1.0, 0.0);
    NormalizedUnit(lib, g);
  }

  /** On the fast path a ratio of 0 renders shape a and a ratio of 1 shape b, each with its compensation. */
  lemma RenderedRatioEnds(lib: Lib, osc: Oscillator, a: int, b: int, ratio: real)
    requires Defined(osc, a) && Defined(osc, b)
    ensures ratio == 0.0 ==> forall i :: 0 <= i < WAVE_LEN ==>
              Rendered(lib, osc, a, b, ratio, a, b, ratio)[i] == WaveOf(lib, osc, a, true, true)[i] + CompOf(osc, a, true, true)[i]
    ensures ratio == 1.0 ==> forall i :: 0 <= i < WAVE_LEN ==>
              Rendered(lib, osc, a, b, ratio, a, b, ratio)[i] == WaveOf(lib, osc, b, true, true)[i] + CompOf(osc, b, true, true)[i]
  {
    var wa, ca := WaveOf(lib, osc, a, true, true), CompOf(osc, a, true, true);
    var wb, cb := WaveOf(lib, osc, b, true, true), CompOf(osc, b, true, true);
    assert Rendered(lib, osc, a, b, ratio, a, b, ratio) == Blend(wa, ca, wb, cb, ratio);
    BlendEnds(wa, ca, wb, cb, ratio);
  }

  /** A ratio of 0 gives the first buffer pair, a ratio of 1 the second. */
  lemma BlendEnds(a: seq<real>, ca: seq<real>, b: seq<real>, cb: seq<real>, ratio: real)
    requires |a| == WAVE_LEN && |ca| == WAVE_LEN && |b| == WAVE_LEN && |cb| == WAVE_LEN
    ensures ratio == 0.0 ==> forall i :: 0 <= i < WAVE_LEN ==> Blend(a, ca, b, cb, ratio)[i] == a[i] + ca[i]
    ensures ratio == 1.0 ==> forall i :: 0 <= i < WAVE_LEN ==> Blend(a, ca, b, cb, ratio)[i] == b[i] + cb[i]
  {
  }

  /** Cross-fading a shape with itself gives that shape, whatever the ratio. */
  lemma ShapeBlendSelf(lib: Lib, osc: Oscillator, a: int, ratio: real, lower: bool, upper: bool)
    requires Defined(osc, a)
    ensures forall i :: 0 <= i < WAVE_LEN ==>
              ShapeBlend(lib, osc, a, a, ratio, lower, upper)[i] == WaveOf(lib, osc, a, lower, upper)[i] + CompOf(osc, a, lower, upper)[i]
  {
    var w, c := WaveOf(lib, osc, a, lower, upper), CompOf(osc, a, lower, upper);
    assert ShapeBlend(lib, osc, a, a, ratio, lower, upper) == Blend(w, c, w, c, ratio);
    BlendSelf(w, c, ratio);
  }

  /** Cross-fading a buffer pair with itself gives its sum, whatever the ratio. */
  lemma BlendSelf(a: seq<real>, ca: seq<real>, ratio: real)
    requires |a| == WAVE_LEN && |ca| == WAVE_LEN
    ensures forall i :: 0 <= i < WAVE_LEN ==> Blend(a, ca, a, ca, ratio)[i] == a[i] + ca[i]
  {
    forall i | 0 <= i < WAVE_LEN
      ensures Blend(a, ca, a, ca, ratio)[i] == a[i] + ca[i]
    {
      var x := a[i] + ca[i];
      assert (1.0 - ratio) * x + ratio * x == x;
    }
  }
}
