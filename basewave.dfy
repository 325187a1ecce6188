/**
 * BaseWave of src/basewave.cpp: the carrier/modulator generator that builds
 * a phasor from two control points and an optional Bezier curve, reads a
 * blend of two oscillator shapes through it, shapes the result with the
 * resonance envelope, normalizes it and broadcasts it into every wave of
 * the bank.
 *
 * The buffers are value members of the C struct (copied with the struct and
 * with memcpy), so they are `seq` fields the methods reassign element by
 * element.
 */
module BaseWaveModel {
  import opened Kernels
  import opened PostProcess
  import opened WaveModel
  import OscillatorModel

  const MAX_RESONANCE: real := 4.0
  const MAX_WEIGHT: real := 4.0
  /** The Bezier parameter advances by 1 / WAVE_LEN / 16, an exact power of two. */
  const BEZIER_STEPS: nat := WAVE_LEN * 16

  /** The scalar members of the struct: shape, phasor and resonance knobs and the stored corner points. */
  datatype Knobs = Knobs(
    lowerShape: real, upperShape: real,
    lockShapes: bool,
    pulseWidth: real, brightness: real,
    bottomAngle: real, bottomMagnitude: real,
    bottomX: real, bottomY: real,
    topAngle: real, topMagnitude: real,
    topX: real, topY: real,
    bezierRatio: real, bezierWeight: real,
    resonance: real)

  datatype BaseWaveState = BaseWaveState(
    knobs: Knobs,
    samples: Buffer, shape: Buffer, phasor: Buffer,
    harmonics: HalfBuffer)

  /** `memset(this, 0, sizeof(BaseWave))` */
  function ZeroBaseState(): BaseWaveState
  {
    BaseWaveState(ZeroKnobs(), Zeros(), Zeros(), Zeros(), HalfZeros())
  }

  function ZeroKnobs(): Knobs
  {
    Knobs(0.0, 0.0, false, 0.0, 0.0, 0.0, 0.0, 0.0, 0.0, 0.0, 0.0, 0.0, 0.0, 0.0, 0.0, 0.0)
  }

  /** Every knob inside the [0, 1] range of its slider. */
  predicate InUiRange(k: Knobs)
  {
    && 0.0 <= k.lowerShape <= 1.0 && 0.0 <= k.upperShape <= 1.0
    && 0.0 <= k.pulseWidth <= 1.0 && 0.0 <= k.brightness <= 1.0
    && 0.0 <= k.bottomAngle <= 1.0 && 0.0 <= k.bottomMagnitude <= 1.0
    && 0.0 <= k.topAngle <= 1.0 && 0.0 <= k.topMagnitude <= 1.0
    && 0.0 <= k.bezierRatio <= 1.0 && 0.0 <= k.bezierWeight <= 1.0
    && 0.0 <= k.resonance <= 1.0
  }

  // ---------------------------------------------------------------------
  // generateShape and getShape (src/basewave.cpp:91-141)

  /** The two shapes and the blend weight generateShape derives from one shape knob. */
  datatype ShapeChoice = ShapeChoice(first: int, second: int, blend: real)

  /**
   * For a knob s in [0, 1] the first shape is floor(6 s), the second is the
   * next one modulo WAVE_SHAPES_LEN, and the blend is the fraction of 6 s.
   */
  function ChooseShapes(s: real): (c: ShapeChoice)
    ensures 0.0 <= s <= 1.0 ==>
              && 0 <= c.first < OscillatorModel.WAVE_SHAPES_LEN && 0 <= c.second < OscillatorModel.WAVE_SHAPES_LEN
              && c.second == (c.first + 1) % OscillatorModel.WAVE_SHAPES_LEN
              && 0.0 <= c.blend < 1.0
              && c.first as real + c.blend == s * (OscillatorModel.WAVE_SHAPES_LEN - 1) as real
  {
    var f := s * (OscillatorModel.WAVE_SHAPES_LEN - 1) as real;
    var f1 := f.Floor;
    var f2 := Fmod(f1 as real + 1.0, OscillatorModel.WAVE_SHAPES_LEN as real);
    var c := ShapeChoice(f1, Trunc(f2), Fmod(f, 1.0));
    if 0.0 <= s <= 1.0 then
      NextShape(f1);
      FmodBounds(f, 1.0);
      c
    else c
  }

  lemma NextShape(k: int)
    requires 0 <= k < OscillatorModel.WAVE_SHAPES_LEN
    ensures Trunc(Fmod(k as real + 1.0, OscillatorModel.WAVE_SHAPES_LEN as real)) == (k + 1) % OscillatorModel.WAVE_SHAPES_LEN
  {
    var x := k as real + 1.0;
    if k == OscillatorModel.WAVE_SHAPES_LEN - 1 {
      assert x / 7.0 == 1.0;
    } else {
      assert 0.0 < x / 7.0 < 1.0;
    }
  }

  /** `getShape`: the arithmetic around the oscillator call, which is a library function. */
  function ShapeSample(lib: Lib, pulseWidth: real, brightness: real, waveform: int, phase: real): real
  {
    var rate := Rescalef(brightness, 0.0, 1.0, (WAVE_LEN / 4) as real, WAVE_LEN as real);
    var p := if pulseWidth < 0.5 then phase + (0.25 - pulseWidth / 2.0)
             else if pulseWidth > 0.75 then phase - (0.75 - pulseWidth)
             else phase;
    lib.oscillatorSample(rate, Clampf(pulseWidth, 0.0, 1.0), waveform, Fmod(p + 0.75, 1.0))
  }

  /** The cross-fade of the two shapes that one knob selects, read at `phase`. */
  function Blend(lib: Lib, st: BaseWaveState, c: ShapeChoice, phase: real): real
  {
    Crossf(ShapeSample(lib, st.knobs.pulseWidth, st.knobs.brightness, c.first, phase),
           ShapeSample(lib, st.knobs.pulseWidth, st.knobs.brightness, c.second, phase), c.blend)
  }

  /** One sample of generateShape: the lower knob below phase 0.5, the upper one from 0.5 on. */
  function ShapedSample(lib: Lib, st: BaseWaveState, phase: real): real
  {
    if phase < 0.5 then Blend(lib, st, ChooseShapes(st.knobs.lowerShape), phase)
    else Blend(lib, st, ChooseShapes(st.knobs.upperShape), phase)
  }

  /** With equal knobs (lock_shapes) both halves of the phase use one and the same blend. */
  lemma LockedShapesAreUniform(lib: Lib, st: BaseWaveState, phase: real)
    requires st.knobs.lowerShape == st.knobs.upperShape
    ensures ShapedSample(lib, st, phase) == Blend(lib, st, ChooseShapes(st.knobs.lowerShape), phase)
  {
  }

  function Shaped(lib: Lib, st: BaseWaveState, phasor: Buffer): Buffer
  {
    seq(WAVE_LEN, i requires 0 <= i < WAVE_LEN => ShapedSample(lib, st, phasor[i]))
  }

  /** `(float) i / WAVE_LEN`: a strictly increasing ramp over [0, 1). */
  function LinearRamp(): (r: Buffer)
    ensures forall i :: 0 <= i < WAVE_LEN ==> 0.0 <= r[i] < 1.0 && r[i] * WAVE_LEN as real == i as real
    ensures forall i, j :: 0 <= i < j < WAVE_LEN ==> r[i] < r[j]
  {
    seq(WAVE_LEN, i requires 0 <= i < WAVE_LEN => i as real / WAVE_LEN as real)
  }

  // ---------------------------------------------------------------------
  // updatePhasor: control points (src/basewave.cpp:185-240)

  datatype Point = Point(x: real, y: real)

  /**
   * The control point relative to its corner: on the horizontal edge of the
   * magnitude square for angles up to 0.5, on the vertical edge above.
   */
  function CornerOffset(lib: Lib, angle: real, magnitude: real): (c: Point)
    requires lib.Valid() && 0.0 <= angle <= 1.0
    ensures angle <= 0.5 ==> c.y == magnitude && (0.0 <= magnitude ==> 0.0 <= c.x <= magnitude)
    ensures angle > 0.5 ==> c.x == magnitude
  {
    var t := angle * PI / 2.0;
    if angle <= 0.5 then
      var l := magnitude / lib.cos(t);
      var c := Point(l * lib.sin(t), magnitude);
      if 0.0 <= magnitude then
        TangentScale(lib.sin(t), lib.cos(t), magnitude);
        c
      else c
    else
      var l := magnitude / lib.sin(t);
      Point(magnitude, l * lib.cos(t))
  }

  lemma TangentScale(s: real, c: real, m: real)
    requires 0.0 <= s <= c && 0.0 < c && 0.0 <= m
    ensures 0.0 <= m / c * s <= m
  {
    FractionBounds(s, c);
    assert m / c * s == m * (s / c);
    MulUnit(s / c, 1.0);
    MulNonneg(m, s / c);
    MulLe(s / c, 1.0, m + 1.0);
    if m > 0.0 {
      MulLe(s / c, 1.0, m);
    }
  }

  /** The angles are slider values, so the divisions by sin and cos are defined. */
  predicate AnglesInRange(k: Knobs)
  {
    0.0 <= k.bottomAngle <= 1.0 && 0.0 <= k.topAngle <= 1.0
  }

  /**
   * The knobs updatePhasor reads, in their slider ranges: the two angles,
   * the two magnitudes and the Bezier weight.
   */
  predicate PhasorKnobsInRange(k: Knobs)
  {
    && AnglesInRange(k)
    && 0.0 <= k.bottomMagnitude <= 1.0 && 0.0 <= k.topMagnitude <= 1.0
    && 0.0 <= k.bezierWeight <= 1.0
  }

  /** The corner coordinates updatePhasor stores; a zero magnitude leaves the stored ones untouched. */
  function Cornered(lib: Lib, k: Knobs): Knobs
    requires lib.Valid() && AnglesInRange(k)
  {
    var b := if k.bottomMagnitude > 0.0 then CornerOffset(lib, k.bottomAngle, k.bottomMagnitude)
             else Point(k.bottomX, k.bottomY);
    var t := if k.topMagnitude > 0.0 then CornerOffset(lib, k.topAngle, k.topMagnitude)
             else Point(1.0 - k.topX, 1.0 - k.topY);
    k.(bottomX := b.x, bottomY := b.y, topX := 1.0 - t.x, topY := 1.0 - t.y)
  }

  /**
   * The `points[8]` array: (0,0), the bottom point or (0,0), the top point
   * or (1,1), then (1,1). Under the slider ranges every x lies in [0, 1].
   */
  function PathPoints(lib: Lib, k: Knobs): (p: seq<real>)
    requires lib.Valid() && AnglesInRange(k)
    ensures |p| == 8
    ensures p[0] == 0.0 && p[1] == 0.0 && p[6] == 1.0 && p[7] == 1.0
    ensures k.bottomMagnitude <= 0.0 ==> p[2] == 0.0 && p[3] == 0.0
    ensures k.topMagnitude <= 0.0 ==> p[4] == 1.0 && p[5] == 1.0
    ensures k.bottomMagnitude > 0.0 ==> p[2] == Cornered(lib, k).bottomX && p[3] == Cornered(lib, k).bottomY
    ensures k.topMagnitude > 0.0 ==> p[4] == Cornered(lib, k).topX && p[5] == Cornered(lib, k).topY
    ensures PhasorKnobsInRange(k) ==> PointsInUnit(p)
  {
    var c := Cornered(lib, k);
    var bx := if k.bottomMagnitude > 0.0 then c.bottomX else 0.0;
    var bY := if k.bottomMagnitude > 0.0 then c.bottomY else 0.0;
    var tx := if k.topMagnitude > 0.0 then c.topX else 1.0;
    var ty := if k.topMagnitude > 0.0 then c.topY else 1.0;
    [0.0, 0.0, bx, bY, tx, ty, 1.0, 1.0]
  }

  /** The four path points start at x = 0 and have every x in [0, 1]. */
  predicate PointsInUnit(p: seq<real>)
  {
    |p| == 8 && p[0] == 0.0 && 0.0 <= p[2] <= 1.0 && 0.0 <= p[4] <= 1.0 && 0.0 <= p[6] <= 1.0
  }

  // ---------------------------------------------------------------------
  // updatePhasor: line segments (src/basewave.cpp:242-252)

  /** How often `for (x = x1 * N; x <= x2 * N; x += 1)` runs. */
  function SegmentCount(x1: real, x2: real): nat
  {
    var a, b := x1 * WAVE_LEN as real, x2 * WAVE_LEN as real;
    if a <= b then (b - a).Floor + 1 else 0
  }

  /** The value stored at position x of the segment from (x1, y1) to (x2, y2). */
  function SegmentValue(x1: real, y1: real, x2: real, y2: real, x: real): real
  {
    var dx, dy := x2 - x1, y2 - y1;
    if dx != 0.0 then y1 + dy * (x / WAVE_LEN as real - x1) / dx else y2
  }

  /** The segment interpolates: it starts at y1, ends at y2 and stays between them. */
  lemma SegmentValueInterpolates(x1: real, y1: real, x2: real, y2: real, x: real)
    requires x1 < x2
    ensures SegmentValue(x1, y1, x2, y2, x1 * WAVE_LEN as real) == y1
    ensures SegmentValue(x1, y1, x2, y2, x2 * WAVE_LEN as real) == y2
    ensures x1 * WAVE_LEN as real <= x <= x2 * WAVE_LEN as real ==>
              (y1 <= y2 ==> y1 <= SegmentValue(x1, y1, x2, y2, x) <= y2) &&
              (y2 <= y1 ==> y2 <= SegmentValue(x1, y1, x2, y2, x) <= y1)
  {
    SegmentStartsAt(x1, y1, x2, y2);
    SegmentEndsAt(x1, y1, x2, y2);
    if x1 * WAVE_LEN as real <= x <= x2 * WAVE_LEN as real {
      SegmentBetween(x1, y1, x2, y2, x);
    }
  }

  lemma SegmentStartsAt(x1: real, y1: real, x2: real, y2: real)
    requires x1 < x2
    ensures SegmentValue(x1, y1, x2, y2, x1 * WAVE_LEN as real) == y1
  {
    MulDivCancel(x1, WAVE_LEN as real);
  }

  lemma SegmentEndsAt(x1: real, y1: real, x2: real, y2: real)
    requires x1 < x2
    ensures SegmentValue(x1, y1, x2, y2, x2 * WAVE_LEN as real) == y2
  {
    MulDivCancel(x2, WAVE_LEN as real);
    MulDivCancel(y2 - y1, x2 - x1);
  }

  lemma SegmentBetween(x1: real, y1: real, x2: real, y2: real, x: real)
    requires x1 < x2 && x1 * WAVE_LEN as real <= x <= x2 * WAVE_LEN as real
    ensures y1 <= y2 ==> y1 <= SegmentValue(x1, y1, x2, y2, x) <= y2
    ensures y2 <= y1 ==> y2 <= SegmentValue(x1, y1, x2, y2, x) <= y1
  {
    var dx, dy := x2 - x1, y2 - y1;
    var n := WAVE_LEN as real;
    var u := x / n - x1;
    DivMulCancel(x, n);
    assert u * n == x - x1 * n;
    assert (dx - u) * n == x2 * n - x;
    if u < 0.0 {
      MulPos(-u, n);
    }
    if dx - u < 0.0 {
      MulPos(u - dx, n);
    }
    var f := u / dx;
    FractionBounds(u, dx);
    ScaleWithin(f, dy, f * dy);
    assert SegmentValue(x1, y1, x2, y2, x) == y1 + dy * u / dx;
    DivCommute(dy, u, dx);
  }

  lemma DivCommute(a: real, u: real, d: real)
    requires d != 0.0
    ensures a * u / d == u / d * a
  {
  }

  /** The indices the segment loop as written stores to: one per step, from trunc(x1 * N). */
  function SegmentWriteIndices(x1: real, x2: real): (w: seq<int>)
    ensures |w| == SegmentCount(x1, x2)
  {
    seq(SegmentCount(x1, x2), t requires 0 <= t < SegmentCount(x1, x2) => Trunc(x1 * WAVE_LEN as real + t as real))
  }

  /**
   * A segment ending at x = 1 whose start x1 * N is integral stores to index
   * WAVE_LEN, one past the end of `phasor`.
   */
  lemma SegmentWritesPastEnd(x1: real)
    requires 0.0 <= x1 <= 1.0 && (x1 * WAVE_LEN as real).Floor as real == x1 * WAVE_LEN as real
    ensures WAVE_LEN in SegmentWriteIndices(x1, 1.0)
  {
    var a := x1 * WAVE_LEN as real;
    var m := a.Floor;
    assert a == m as real;
    FloorOfInt(WAVE_LEN - m);
    assert WAVE_LEN as real - a == (WAVE_LEN - m) as real;
    var n := SegmentCount(x1, 1.0);
    assert n == WAVE_LEN - m + 1;
    FloorOfInt(WAVE_LEN);
    assert SegmentWriteIndices(x1, 1.0)[n - 1] == Trunc(a + (n - 1) as real);
  }

  lemma FloorOfInt(k: int)
    ensures (k as real).Floor == k
  {
  }

  /** For x >= 0 the stores of consecutive steps go to consecutive indices. */
  lemma TruncShift(x: real, t: nat)
    requires 0.0 <= x
    ensures Trunc(x + t as real) == x.Floor + t
  {
  }

  /**
   * The phasor after one segment as the model performs it: the stores of
   * the loop, except the ones at WAVE_LEN or beyond, which are skipped.
   */
  function Rastered(p: Buffer, x1: real, y1: real, x2: real, y2: real): (r: Buffer)
    requires 0.0 <= x1
  {
    var start := (x1 * WAVE_LEN as real).Floor;
    var n := SegmentCount(x1, x2);
    seq(WAVE_LEN, k requires 0 <= k < WAVE_LEN =>
      if start <= k < start + n then SegmentValue(x1, y1, x2, y2, x1 * WAVE_LEN as real + (k - start) as real)
      else p[k])
  }

  /** The segment loop, with the store past the end left out. */
  method RasterSegment(p0: Buffer, x1: real, y1: real, x2: real, y2: real) returns (p: Buffer)
    requires 0.0 <= x1
    ensures p == Rastered(p0, x1, y1, x2, y2)
  {
    ghost var want := Rastered(p0, x1, y1, x2, y2);
    var start := (x1 * WAVE_LEN as real).Floor;
    var n := SegmentCount(x1, x2);
    p := p0;
    for t := 0 to n
      invariant forall k :: 0 <= k < WAVE_LEN ==> p[k] == if start <= k < start + t then want[k] else p0[k]
    {
      var x := x1 * WAVE_LEN as real + t as real;
      var index := Trunc(x);
      TruncShift(x1 * WAVE_LEN as real, t);
      if index < WAVE_LEN {
        p := p[index := SegmentValue(x1, y1, x2, y2, x)];
      }
    }
  }

  /** The first `n` points' segments drawn in order, as the `point` loop does. */
  function RasteredPath(p: Buffer, points: seq<real>, n: nat): Buffer
    requires PointsInUnit(points) && n <= 4
  {
    if n <= 1 then p
    else
      var q := RasteredPath(p, points, n - 1);
      Rastered(q, points[2 * (n - 2)], points[2 * (n - 2) + 1], points[2 * (n - 1)], points[2 * (n - 1) + 1])
  }

  /** Drawing segment n of the path extends the first n points' drawing. */
  lemma RasteredPathStep(p: Buffer, points: seq<real>, n: nat)
    requires PointsInUnit(points) && 1 <= n < 4
    ensures RasteredPath(p, points, n + 1)
      == Rastered(RasteredPath(p, points, n), points[2 * (n - 1)], points[2 * (n - 1) + 1], points[2 * n], points[2 * n + 1])
  {
  }

  // ---------------------------------------------------------------------
  // updatePhasor: Bezier curve (src/basewave.cpp:254-276)

  /** The four Bernstein weights, the two inner ones scaled by `weight`. powf with exponents 2 and 3 is exact here. */
  function BezierWeights(weight: real, u: real): (c: seq<real>)
    ensures |c| == 4
  {
    [(1.0 - u) * (1.0 - u) * (1.0 - u),
     weight * 3.0 * u * ((1.0 - u) * (1.0 - u)),
     weight * 3.0 * (u * u) * (1.0 - u),
     u * u * u]
  }

  /** For 0 <= u < 1 and weight >= 0 all weights are non-negative and the first is positive. */
  lemma BezierWeightsPositive(weight: real, u: real)
    requires 0.0 <= u < 1.0 && 0.0 <= weight
    ensures var c := BezierWeights(weight, u);
            0.0 < c[0] && 0.0 <= c[1] && 0.0 <= c[2] && 0.0 <= c[3]
  {
    var v := 1.0 - u;
    CubePositive(v);
    var vv := v * v;
    ProductNonneg(v, v, vv);
    var uu := u * u;
    ProductNonneg(u, u, uu);
    var w3 := weight * 3.0;
    ProductNonneg(weight, 3.0, w3);
    ProductNonneg(w3, u, w3 * u);
    ProductNonneg(w3 * u, vv, w3 * u * vv);
    ProductNonneg(w3, uu, w3 * uu);
    ProductNonneg(w3 * uu, v, w3 * uu * v);
    ProductNonneg(uu, u, uu * u);
    var c := BezierWeights(weight, u);
    assert c[0] == v * v * v;
    assert c[1] == w3 * u * vv;
    assert c[2] == w3 * uu * v;
    assert c[3] == uu * u;
  }

  lemma CubePositive(x: real)
    requires 0.0 < x
    ensures 0.0 < x * x * x
  {
    var s := x * x;
    ProductPos(x, x, s);
    ProductPos(s, x, s * x);
  }

  function WeightSum(c: seq<real>): real
    requires |c| == 4
  {
    c[0] + c[1] + c[2] + c[3]
  }

  function Weighted(c: seq<real>, a: real, b: real, d: real, e: real): real
    requires |c| == 4
  {
    c[0] * a + c[1] * b + c[2] * d + c[3] * e
  }

  /** The raster index `(int)(bx * N)` of the curve point at parameter u. */
  function BezierIndex(points: seq<real>, weight: real, u: real): int
    requires |points| == 8 && 0.0 <= u < 1.0 && 0.0 <= weight
  {
    var c := BezierWeights(weight, u);
    BezierWeightsPositive(weight, u);
    var bx := Weighted(c, points[0], points[2], points[4], points[6]);
    Trunc(Clampf(bx / WeightSum(c), 0.0, 1.0) * WAVE_LEN as real)
  }

  /** The value `by`, clamped to [-1, 1], stored at that index. */
  function BezierValue(points: seq<real>, weight: real, u: real): real
    requires |points| == 8 && 0.0 <= u < 1.0 && 0.0 <= weight
  {
    var c := BezierWeights(weight, u);
    BezierWeightsPositive(weight, u);
    var cy := Weighted(c, points[1], points[3], points[5], points[7]);
    Clampf(cy / WeightSum(c), -1.0, 1.0)
  }

  /**
   * bx / bw is a weighted average of the four x coordinates with positive
   * weight on x = 0, so it stays below 1 and the raster index below N.
   */
  lemma BezierIndexInRange(points: seq<real>, weight: real, u: real)
    requires PointsInUnit(points) && 0.0 <= u < 1.0 && 0.0 <= weight
    ensures 0 <= BezierIndex(points, weight, u) < WAVE_LEN
  {
    var c := BezierWeights(weight, u);
    BezierWeightsPositive(weight, u);
    var bx := Weighted(c, points[0], points[2], points[4], points[6]);
    var bw := WeightSum(c);
    AverageBelowOne(c, points);
    FractionBounds(bx, bw);
    var f := Clampf(bx / bw, 0.0, 1.0);
    MulLt(f, 1.0, WAVE_LEN as real);
    MulNonneg(f, WAVE_LEN as real);
  }

  /** With a positive weight on x = 0, the weighted x sum stays below the weight sum. */
  lemma AverageBelowOne(c: seq<real>, points: seq<real>)
    requires PointsInUnit(points) && |c| == 4
    requires 0.0 < c[0] && 0.0 <= c[1] && 0.0 <= c[2] && 0.0 <= c[3]
    ensures 0.0 <= Weighted(c, points[0], points[2], points[4], points[6]) < WeightSum(c)
  {
    var t1, t2, t3 := c[1] * points[2], c[2] * points[4], c[3] * points[6];
    WeightedBelow(c[1], points[2], t1);
    WeightedBelow(c[2], points[4], t2);
    WeightedBelow(c[3], points[6], t3);
    assert c[0] * points[0] == 0.0 by { assert points[0] == 0.0; }
  }

  lemma WeightedBelow(c: real, x: real, t: real)
    requires 0.0 <= c && 0.0 <= x <= 1.0 && t == c * x
    ensures 0.0 <= t <= c
  {
    ProductNonneg(c, x, t);
    ProductNonneg(c, 1.0 - x, c - t);
  }

  /** The `bezier[]` buffer after the first n steps of the u loop. */
  function BezierRaster(points: seq<real>, weight: real, n: nat): Buffer
    requires PointsInUnit(points) && 0.0 <= weight && n <= BEZIER_STEPS
  {
    if n == 0 then Zeros()
    else
      var b := BezierRaster(points, weight, n - 1);
      var u := (n - 1) as real / BEZIER_STEPS as real;
      BezierIndexInRange(points, weight, u);
      b[BezierIndex(points, weight, u) := BezierValue(points, weight, u)]
  }

  /** The cross-fade of the line phasor with the Bezier raster. */
  function Crossfaded(a: Buffer, b: Buffer, ratio: real): (r: Buffer)
    ensures ratio == 0.0 ==> r == a
    ensures ratio == 1.0 ==> r == b
  {
    seq(WAVE_LEN, i requires 0 <= i < WAVE_LEN => Crossf(a[i], b[i], ratio))
  }

  /** The phasor drawn through the control points: the polyline, cross-faded with the Bezier curve when the ratio is positive. */
  function Traced(phasor: Buffer, points: seq<real>, ratio: real, bezierWeight: real): Buffer
    requires PointsInUnit(points) && 0.0 <= bezierWeight
  {
    var line := RasteredPath(phasor, points, 4);
    if ratio > 0.0 then Crossfaded(line, BezierRaster(points, 1.0 + bezierWeight * MAX_WEIGHT, BEZIER_STEPS), ratio)
    else line
  }

  /** The state after updatePhasor. */
  function PhasorUpdated(lib: Lib, st: BaseWaveState): (r: BaseWaveState)
    requires lib.Valid() && PhasorKnobsInRange(st.knobs)
  {
    var points := PathPoints(lib, st.knobs);
    st.(knobs := Cornered(lib, st.knobs), phasor := Traced(st.phasor, points, st.knobs.bezierRatio, st.knobs.bezierWeight))
  }

  /**
   * With both magnitudes and the Bezier ratio at 0, as after clear, the
   * phasor is the identity ramp k / N: the line from (0,0) to (1,1) covers
   * every index.
   */
  lemma DefaultPhasorIsIdentity(lib: Lib, st: BaseWaveState)
    requires lib.Valid() && PhasorKnobsInRange(st.knobs)
    requires st.knobs.bottomMagnitude == 0.0 && st.knobs.topMagnitude == 0.0 && st.knobs.bezierRatio == 0.0
    ensures PhasorUpdated(lib, st).phasor == LinearRamp()
  {
    var points := PathPoints(lib, st.knobs);
    var p1 := Rastered(st.phasor, 0.0, 0.0, 0.0, 0.0);
    var p2 := Rastered(p1, 0.0, 0.0, 1.0, 1.0);
    var p3 := Rastered(p2, 1.0, 1.0, 1.0, 1.0);
    assert RasteredPath(st.phasor, points, 4) == p3;
    assert SegmentCount(0.0, 1.0) == WAVE_LEN + 1;
    forall k | 0 <= k < WAVE_LEN
      ensures p3[k] == LinearRamp()[k]
    {
      assert p2[k] == SegmentValue(0.0, 0.0, 1.0, 1.0, k as real);
    }
  }

  /**
   * As written, clear's phasor (both magnitudes 0) draws the segments
   * (0,0)-(1,1) and (1,1)-(1,1), and both store to `phasor[WAVE_LEN]`.
   */
  lemma DefaultPhasorWritesPastEnd(lib: Lib, st: BaseWaveState)
    requires lib.Valid() && AnglesInRange(st.knobs)
    requires st.knobs.bottomMagnitude == 0.0 && st.knobs.topMagnitude == 0.0
    ensures var p := PathPoints(lib, st.knobs);
            WAVE_LEN in SegmentWriteIndices(p[2], p[4]) && WAVE_LEN in SegmentWriteIndices(p[4], p[6])
  {
    SegmentWritesPastEnd(0.0);
    SegmentWritesPastEnd(1.0);
  }

  // ---------------------------------------------------------------------
  // generateSamples (src/basewave.cpp:282-359)

  function SyncStep(resonance: real): real
  {
    1.0 / WAVE_LEN as real * (1.0 + MAX_RESONANCE * resonance)
  }

  /** `sync_phase` at the start of iteration i; for 0 < resonance <= 1 it stays in [0, 1). */
  function SyncPhase(resonance: real, i: nat): (s: real)
    ensures 0.0 < resonance <= 1.0 ==> 0.0 <= s < 1.0
  {
    if i == 0 then 0.0
    else
      var s := SyncPhase(resonance, i - 1) + SyncStep(resonance);
      if s >= 1.0 then s - 1.0 else s
  }

  /** The lookup index `(int)(sync_phase * WAVE_LEN)`, which stays inside the phasor. */
  function SyncIndex(resonance: real, i: nat): (k: int)
    ensures 0.0 < resonance <= 1.0 ==> 0 <= k < WAVE_LEN
  {
    var s := SyncPhase(resonance, i);
    if 0.0 < resonance <= 1.0 then
      MulLt(s, 1.0, WAVE_LEN as real);
      MulNonneg(s, WAVE_LEN as real);
      Trunc(s * WAVE_LEN as real)
    else Trunc(s * WAVE_LEN as real)
  }

  /**
   * The wrap of `sync_phase` needs only a step of at most 1, that is
   * resonance <= 63.75: one subtraction then brings s + step back below 1.
   */
  lemma {:induction false} SyncPhaseSmallStep(resonance: real, i: nat)
    requires 0.0 <= SyncStep(resonance) <= 1.0
    ensures 0.0 <= SyncPhase(resonance, i) < 1.0
  {
    if i > 0 {
      SyncPhaseSmallStep(resonance, i - 1);
    }
  }

  /**
   * With a step of 2 (resonance 127.75) the phase after the first step is
   * exactly 1, so the second lookup reads `phasor[WAVE_LEN]`, past the end.
   */
  lemma SyncPhaseLargeStepReadsPastEnd()
    ensures SyncStep(127.75) == 2.0
    ensures SyncPhase(127.75, 1) == 1.0 && SyncIndex(127.75, 1) == WAVE_LEN
  {
  }

  /** `final_phasor` for a positive resonance: the phasor read at the synced phase. */
  function ResonantPhasor(phasor: Buffer, resonance: real): Buffer
    requires 0.0 < resonance <= 1.0
  {
    seq(WAVE_LEN, i requires 0 <= i < WAVE_LEN => phasor[SyncIndex(resonance, i)])
  }

  /**
   * The resonance envelope: the sample mapped to [0, 1], scaled by
   * (N - i) / N and mapped back. It keeps [-1, 1] and leaves sample 0 as it is.
   */
  function Envelope(x: real, i: nat): (r: real)
    ensures -1.0 <= x <= 1.0 && i <= WAVE_LEN ==> -1.0 <= r <= 1.0
    ensures i == 0 ==> r == x
  {
    var a := Rescalef(x, -1.0, 1.0, 0.0, 1.0);
    var e := a * (WAVE_LEN - i) as real / WAVE_LEN as real;
    var r := Rescalef(e, 0.0, 1.0, -1.0, 1.0);
    if -1.0 <= x <= 1.0 && i <= WAVE_LEN then
      RescalefBounds(x, -1.0, 1.0, 0.0, 1.0);
      EnvelopeScale(a, i);
      RescalefBounds(e, 0.0, 1.0, -1.0, 1.0);
      r
    else r
  }

  lemma EnvelopeScale(a: real, i: nat)
    requires 0.0 <= a <= 1.0 && i <= WAVE_LEN
    ensures 0.0 <= a * (WAVE_LEN - i) as real / WAVE_LEN as real <= 1.0
  {
    var m := (WAVE_LEN - i) as real;
    MulUnit(a, 1.0);
    MulNonneg(a, m);
    MulLe(a, 1.0, m + 1.0);
    if m > 0.0 {
      MulLe(a, 1.0, m);
    }
    FractionBounds(a * m, WAVE_LEN as real);
  }

  function Enveloped(s: Buffer): Buffer
  {
    seq(WAVE_LEN, i requires 0 <= i < WAVE_LEN => Envelope(s[i], i))
  }

  /** The raw shape generateSamples produces before normalization. */
  function RawShape(lib: Lib, st: BaseWaveState): Buffer
    requires st.knobs.resonance <= 1.0
  {
    if st.knobs.resonance > 0.0 then Enveloped(Shaped(lib, st, ResonantPhasor(st.phasor, st.knobs.resonance)))
    else Shaped(lib, st, st.phasor)
  }

  /** The state after generateSamples, apart from the broadcast into the bank. */
  function SamplesGenerated(lib: Lib, st: BaseWaveState): (r: BaseWaveState)
    requires st.knobs.resonance <= 1.0
    ensures r == st.(samples := r.samples, harmonics := r.harmonics)
  {
    var raw := RawShape(lib, st);
    NormalizedShape(lib, raw, -1.0, 1.0, 0.0);
    var s: Buffer := Normalized(lib, raw, -1.0, 1.0, 0.0);
    st.(samples := s, harmonics := HarmonicsOf(lib, lib.rfft(s)))
  }

  /**
   * The generated samples are the normalized raw shape, in [-1, 1], and the
   * harmonics are non-negative magnitudes of their spectrum.
   */
  lemma GeneratedSamplesNormalized(lib: Lib, st: BaseWaveState)
    requires lib.Valid() && st.knobs.resonance <= 1.0
    ensures var r := SamplesGenerated(lib, st);
            && r.samples == Normalized(lib, RawShape(lib, st), -1.0, 1.0, 0.0)
            && (forall i :: 0 <= i < WAVE_LEN ==> -1.0 <= r.samples[i] <= 1.0)
            && (forall i :: 0 <= i < WAVE_LEN / 2 ==> r.harmonics[i] >= 0.0)
            && (st.knobs.resonance <= 0.0 ==> r.samples == Normalized(lib, Shaped(lib, st, st.phasor), -1.0, 1.0, 0.0))
  {
    var r := SamplesGenerated(lib, st);
    NormalizedUnit(lib, RawShape(lib, st));
    HarmonicsAreMagnitudes(lib, lib.rfft(r.samples));
  }

  /**
   * The state clear leaves before its three update calls. The oscillator
   * enum's SINE is not part of this model; it is taken as 0, the value of
   * SINE among the wave shapes.
   */
  function ClearedParameters(): BaseWaveState
  {
    ZeroBaseState().(knobs := ZeroKnobs().(lowerShape := OscillatorModel.SINE as real, upperShape := OscillatorModel.SINE as real, pulseWidth := 0.5, lockShapes := true))
  }

  /** What updateSamples leaves in a wave of the bank. */
  function Broadcast(lib: Lib, w: WaveState, samples: Buffer): WaveState
    requires lib.Valid() && PostDefined(w.effects)
  {
    Committed(lib, w.(samples := samples))
  }

  /** Waves each of whose effects updatePost accepts. */
  predicate WavesReady(waves: array<WaveState>)
    reads waves
  {
    forall j :: 0 <= j < waves.Length ==> PostDefined(waves[j].effects)
  }

  // ---------------------------------------------------------------------
  // The BaseWave struct

  class BaseWave {
    var knobs: Knobs
    var samples: Buffer
    var shape: Buffer
    var phasor: Buffer
    var harmonics: HalfBuffer

    function State(): BaseWaveState
      reads this
    {
      BaseWaveState(knobs, samples, shape, phasor, harmonics)
    }

    /** A BaseWave inside a zeroed Bank. */
    constructor()
      ensures State() == ZeroBaseState()
    {
      knobs := ZeroKnobs();
      samples, shape, phasor, harmonics := Zeros(), Zeros(), Zeros(), HalfZeros();
    }

    /** The memset of the whole struct. */
    method Zero()
      modifies this
      ensures State() == ZeroBaseState()
    {
      knobs := ZeroKnobs();
      samples, shape, phasor, harmonics := Zeros(), Zeros(), Zeros(), HalfZeros();
    }

    /** `generateShape(shape_phasor, samples)` into a fresh buffer. */
    method GenerateShape(lib: Lib, shapePhasor: Buffer) returns (out: Buffer)
      ensures out == Shaped(lib, State(), shapePhasor)
    {
      var lower := ChooseShapes(knobs.lowerShape);
      var upper := ChooseShapes(knobs.upperShape);
      out := Zeros();
      for i := 0 to WAVE_LEN
        invariant forall k :: 0 <= k < i ==> out[k] == ShapedSample(lib, State(), shapePhasor[k])
      {
        var phase := shapePhasor[i];
        var c := if phase < 0.5 then lower else upper;
        var s1 := ShapeSample(lib, knobs.pulseWidth, knobs.brightness, c.first, phase);
        var s2 := ShapeSample(lib, knobs.pulseWidth, knobs.brightness, c.second, phase);
        out := out[i := Crossf(s1, s2, c.blend)];
      }
    }

    /** `updateShape` */
    method UpdateShape(lib: Lib)
      modifies this
      ensures State() == old(State()).(shape := Shaped(lib, old(State()), LinearRamp()))
    {
      var linear := Zeros();
      for i := 0 to WAVE_LEN
        invariant forall k :: 0 <= k < i ==> linear[k] == LinearRamp()[k]
      {
        linear := linear[i := i as real / WAVE_LEN as real];
      }
      assert linear == LinearRamp();
      shape := GenerateShape(lib, linear);
    }

    /** `updatePhasor` */
    method UpdatePhasor(lib: Lib)
      requires lib.Valid() && PhasorKnobsInRange(knobs)
      modifies this
      ensures State() == PhasorUpdated(lib, old(State()))
    {
      var k, points := ControlPoints(lib, knobs);
      var line := TracePhasor(phasor, points, k.bezierRatio, k.bezierWeight);
      knobs, phasor := k, line;
    }

    /** `generateSamples`, including the broadcast into `waves`. */
    method GenerateSamples(lib: Lib, waves: array<WaveState>)
      requires lib.Valid() && knobs.resonance <= 1.0 && WavesReady(waves)
      modifies this, waves
      ensures State() == SamplesGenerated(lib, old(State()))
      ensures forall j :: 0 <= j < waves.Length ==> waves[j] == Broadcast(lib, old(waves[j]), samples)
    {
      var resonance := knobs.resonance;
      var finalPhasor := phasor;
      if resonance > 0.0 {
        finalPhasor := SyncedLookup(phasor, resonance);
      }
      var tmp := GenerateShape(lib, finalPhasor);
      if resonance > 0.0 {
        tmp := ApplyEnvelope(tmp);
      }
      var normalized := NormalizeBuffer(lib, tmp);
      var spectrum := lib.rfft(normalized);
      harmonics := ComputeHarmonics(lib, spectrum);
      samples := normalized;
      UpdateSamples(lib, waves);
    }

    /** `updateSamples`: copy the samples into every wave of the bank and commit it. */
    method UpdateSamples(lib: Lib, waves: array<WaveState>)
      requires lib.Valid() && WavesReady(waves)
      modifies waves
      ensures forall j :: 0 <= j < waves.Length ==> waves[j] == Broadcast(lib, old(waves[j]), samples)
    {
      BroadcastSamples(lib, waves, samples);
    }

    /** `clear`: zero everything, set the defaults, then rebuild shape, phasor and samples. */
    method Clear(lib: Lib, waves: array<WaveState>)
      requires lib.Valid() && WavesReady(waves)
      modifies this, waves
      ensures InUiRange(ClearedParameters().knobs)
      ensures State() == SamplesGenerated(lib, PhasorUpdated(lib, ClearedParameters().(shape := Shaped(lib, ClearedParameters(), LinearRamp()))))
      ensures forall j :: 0 <= j < waves.Length ==> waves[j] == Broadcast(lib, old(waves[j]), samples)
    {
      Zero();
      knobs := knobs.(lowerShape := OscillatorModel.SINE as real, upperShape := OscillatorModel.SINE as real, pulseWidth := 0.5, lockShapes := true,
                      brightness := 0.0, bottomAngle := 0.0, bottomMagnitude := 0.0, bottomX := 0.0, bottomY := 0.0,
                      topAngle := 0.0, topMagnitude := 0.0, topX := 0.0, topY := 0.0,
                      bezierRatio := 0.0, bezierWeight := 0.0);
      UpdateShape(lib);
      UpdatePhasor(lib);
      GenerateSamples(lib, waves);
    }
  }

  /** The loop of updateSamples: every wave of the bank takes the samples and is committed. */
  method BroadcastSamples(lib: Lib, waves: array<WaveState>, s: Buffer)
    requires lib.Valid() && WavesReady(waves)
    modifies waves
    ensures forall j :: 0 <= j < waves.Length ==> waves[j] == Broadcast(lib, old(waves[j]), s)
  {
    for j := 0 to waves.Length
      invariant forall k :: 0 <= k < j ==> waves[k] == Broadcast(lib, old(waves[k]), s)
      invariant forall k :: j <= k < waves.Length ==> waves[k] == old(waves[k])
    {
      waves[j] := Committed(lib, waves[j].(samples := s));
    }
  }

  /** normalize_array(tmp_samples, WAVE_LEN, -1.0, 1.0, 0.0) on a copy of the buffer. */
  method NormalizeBuffer(lib: Lib, s: Buffer) returns (r: Buffer)
    ensures r == Normalized(lib, s, -1.0, 1.0, 0.0)
  {
    var buffer := new real[WAVE_LEN](i requires 0 <= i < WAVE_LEN reads {} => s[i]);
    assert buffer[..] == s;
    NormalizeArray(lib, buffer, -1.0, 1.0, 0.0);
    NormalizedShape(lib, s, -1.0, 1.0, 0.0);
    r := buffer[..];
  }

  /** The sync-phase loop of generateSamples. */
  method SyncedLookup(phasor: Buffer, resonance: real) returns (out: Buffer)
    requires 0.0 < resonance <= 1.0
    ensures out == ResonantPhasor(phasor, resonance)
  {
    out := Zeros();
    var phase := 0.0;
    var syncPhase := 0.0;
    for i := 0 to WAVE_LEN
      invariant syncPhase == SyncPhase(resonance, i)
      invariant forall k :: 0 <= k < i ==> out[k] == phasor[SyncIndex(resonance, k)]
    {
      var index := SyncIndex(resonance, i);
      out := out[i := phasor[index]];
      phase := phase + 1.0 / WAVE_LEN as real;
      syncPhase := syncPhase + SyncStep(resonance);
      if syncPhase >= 1.0 {
        syncPhase := syncPhase - 1.0;
      }
    }
  }

  /** The resonance envelope loop. */
  method ApplyEnvelope(s: Buffer) returns (out: Buffer)
    ensures out == Enveloped(s)
  {
    out := s;
    for i := 0 to WAVE_LEN
      invariant forall k :: 0 <= k < WAVE_LEN ==> out[k] == if k < i then Envelope(s[k], k) else s[k]
    {
      out := out[i := Envelope(out[i], i)];
    }
  }

  /** The corner and `points[]` part of updatePhasor. */
  method ControlPoints(lib: Lib, k0: Knobs) returns (k: Knobs, points: seq<real>)
    requires lib.Valid() && AnglesInRange(k0)
    ensures k == Cornered(lib, k0) && points == PathPoints(lib, k0)
  {
    k := k0;
    if k.bottomMagnitude > 0.0 {
      var c := CornerOffset(lib, k.bottomAngle, k.bottomMagnitude);
      k := k.(bottomX := c.x, bottomY := c.y);
    }
    if k.topMagnitude > 0.0 {
      var c := CornerOffset(lib, k.topAngle, k.topMagnitude);
      k := k.(topX := 1.0 - c.x, topY := 1.0 - c.y);
    }
    points := [0.0, 0.0,
               if k.bottomMagnitude > 0.0 then k.bottomX else 0.0,
               if k.bottomMagnitude > 0.0 then k.bottomY else 0.0,
               if k.topMagnitude > 0.0 then k.topX else 1.0,
               if k.topMagnitude > 0.0 then k.topY else 1.0,
               1.0, 1.0];
  }

  /** The segment loop of updatePhasor and, for a positive ratio, the Bezier cross-fade. */
  method TracePhasor(phasor: Buffer, points: seq<real>, ratio: real, bezierWeight: real) returns (line: Buffer)
    requires PointsInUnit(points) && 0.0 <= bezierWeight
    ensures line == Traced(phasor, points, ratio, bezierWeight)
  {
    line := phasor;
    for point := 1 to 4
      invariant line == RasteredPath(phasor, points, point)
    {
      var i := (point - 1) * 2;
      RasteredPathStep(phasor, points, point);
      line := RasterSegment(line, points[i], points[i + 1], points[i + 2], points[i + 3]);
    }
    if ratio > 0.0 {
      var bezier := BezierCurve(points, 1.0 + bezierWeight * MAX_WEIGHT);
      line := CrossfadeBuffers(line, bezier, ratio);
    }
  }

  /** The u loop of the Bezier raster. */
  method BezierCurve(points: seq<real>, weight: real) returns (bezier: Buffer)
    requires PointsInUnit(points) && 0.0 <= weight
    ensures bezier == BezierRaster(points, weight, BEZIER_STEPS)
  {
    bezier := Zeros();
    for k := 0 to BEZIER_STEPS
      invariant bezier == BezierRaster(points, weight, k)
    {
      var u := k as real / BEZIER_STEPS as real;
      BezierIndexInRange(points, weight, u);
      bezier := bezier[BezierIndex(points, weight, u) := BezierValue(points, weight, u)];
    }
  }

  /** The cross-fade loop of the Bezier step. */
  method CrossfadeBuffers(a: Buffer, b: Buffer, ratio: real) returns (r: Buffer)
    ensures r == Crossfaded(a, b, ratio)
  {
    r := a;
    for i := 0 to WAVE_LEN
      invariant forall k :: 0 <= k < WAVE_LEN ==> r[k] == if k < i then Crossf(a[k], b[k], ratio) else a[k]
    {
      r := r[i := Crossf(r[i], b[i], ratio)];
    }
  }
}
