/**
 * Constants, buffer types and the inline math helpers that every part of
 * WaveEdit builds on (the "math.cpp" block of WaveEdit.hpp).
 *
 * Single-precision floats are modelled as mathematical reals. C's
 * float-to-int conversion, integer `/` and `%`, `roundf` and `fmodf` are
 * defined exactly; transcendental functions, the FFT and the processing
 * stages whose code is not modelled are fields of the `Lib` datatype and
 * stay uninterpreted.
 */
module Kernels {

  /** Samples per wave (the default, non-Blofeld build). */
  const WAVE_LEN: nat := 256
  /** Waves per bank in the PHMK2 build. */
  const BANK_LEN: nat := 256
  /** Hex characters of data per ROM record in the PHMK2 build. */
  const HEX_LINE_WIDTH: nat := 32
  /** `M_PI` as a double: slightly less than the real pi. */
  const PI: real := 3.141592653589793

  /** A time-domain or interleaved-spectrum buffer of one wave. */
  type Buffer = s: seq<real> | |s| == WAVE_LEN witness seq(256, _ => 0.0)
  /** One magnitude per harmonic bin. */
  type HalfBuffer = s: seq<real> | |s| == WAVE_LEN / 2 witness seq(128, _ => 0.0)

  function Zeros(): (z: Buffer)
    ensures forall i :: 0 <= i < WAVE_LEN ==> z[i] == 0.0
  {
    seq(WAVE_LEN, _ => 0.0)
  }

  function HalfZeros(): (z: HalfBuffer)
    ensures forall i :: 0 <= i < WAVE_LEN / 2 ==> z[i] == 0.0
  {
    seq(WAVE_LEN / 2, _ => 0.0)
  }

  /**
   * Everything the modelled code calls but whose behaviour is not modelled:
   * libm, the FFT pair declared next to the helpers, the spectral and
   * modulation stages of Wave::updatePost, the Oscillator API used by
   * BaseWave::getShape, and the float produced by `memset` with a non-zero byte.
   */
  datatype Lib = Lib(
    pow: (real, real) -> real,
    sin: real -> real,
    cos: real -> real,
    asin: real -> real,
    hypot: (real, real) -> real,
    rfft: Buffer -> Buffer,
    irfft: Buffer -> Buffer,
    /** The float whose four bytes all equal `b`, for 0 < b < 256. */
    byteFill: int -> real,
    /** Harmonic stretch/shift/asymmetry/balance/fold block of updatePost. */
    harmonicStage: (Buffer, seq<real>) -> Buffer,
    /** Comb filter of updatePost, given the COMB amount. */
    combStage: (Buffer, real) -> Buffer,
    /** The four modulation kernels: carrier, modulator, index, depth. */
    phaseModulation: (Buffer, Buffer, real, real) -> Buffer,
    frequencyModulation: (Buffer, Buffer, real, real) -> Buffer,
    ringModulation: (Buffer, Buffer, real, real) -> Buffer,
    amplitudeModulation: (Buffer, Buffer, real, real) -> Buffer,
    /**
     * The sample an Oscillator of the unshown API returns from `getAndInc`
     * right after `setSampleRate`, `setPulseWidth`, `setWaveform` and `sync`
     * with these arguments.
     */
    oscillatorSample: (real, real, int, real) -> real
  )
  {
    /** Facts about the real functions behind the library calls that the model relies on. */
    ghost predicate Valid()
    {
      && (forall x, y :: x > 0.0 ==> pow(x, y) > 0.0)
      && (forall x, y :: 0.0 < x <= 1.0 && y <= 0.0 ==> pow(x, y) >= 1.0)
      && (forall a, b :: hypot(a, b) >= 0.0 && hypot(a, b) * hypot(a, b) == a * a + b * b)
      && (forall t :: 0.0 <= t <= PI / 4.0 ==> 0.0 <= sin(t) <= cos(t) && 0.0 < cos(t))
      && (forall t :: PI / 4.0 < t <= PI / 2.0 ==> 0.0 < sin(t))
    }
  }

  // ---------------------------------------------------------------------
  // C arithmetic

  /** C's conversion of a float to an int: truncation toward zero. */
  function Trunc(x: real): (n: int)
    ensures 0.0 <= x ==> 0 <= n && n as real <= x < n as real + 1.0
    ensures x <= 0.0 ==> n <= 0 && n as real - 1.0 < x <= n as real
  {
    if x >= 0.0 then x.Floor else -((-x).Floor)
  }

  /** `fmodf(x, y)`: the remainder of x / y truncated toward zero. */
  function Fmod(x: real, y: real): real
    requires y != 0.0
  {
    x - Trunc(x / y) as real * y
  }

  /** For a non-negative dividend and a positive divisor the remainder lies in [0, y). */
  lemma FmodBounds(x: real, y: real)
    requires 0.0 <= x && 0.0 < y
    ensures 0.0 <= Fmod(x, y) < y
  {
    var z := x / y;
    QuotientBracket(x, y, z, Trunc(z) as real);
  }

  /** `roundf`: nearest integer, halfway cases away from zero. */
  function Roundf(x: real): (n: int)
    ensures 0.0 <= x ==> x - 0.5 < n as real <= x + 0.5
    ensures x < 0.0 ==> x - 0.5 <= n as real < x + 0.5
  {
    if x >= 0.0 then (x + 0.5).Floor else -((-x + 0.5).Floor)
  }

  /** An integer rounds to itself. */
  lemma RoundfInteger(n: int)
    ensures Roundf(n as real) == n
  {
  }

  /** C's `a / b` on ints: the quotient truncated toward zero. */
  function CQuot(a: int, b: int): int
    requires b != 0
  {
    var m := if b > 0 then b else -b;
    var q := (if a >= 0 then a else -a) / m;
    if (a >= 0) == (b > 0) then q else -q
  }

  /**
   * C's `a % b` on ints. The C standard defines it by (a / b) * b + a % b == a,
   * and the remainder takes the sign of the dividend.
   */
  function CRem(a: int, b: int): (r: int)
    requires b != 0
    ensures CQuot(a, b) * b + r == a
    ensures 0 <= a ==> 0 <= r && (0 < b ==> r < b) && (b < 0 ==> r < -b)
    ensures a < 0 ==> r <= 0 && (0 < b ==> -b < r) && (b < 0 ==> b < r)
  {
    var m := if b > 0 then b else -b;
    var n := if a >= 0 then a else -a;
    var q := n / m;
    assert n == q * m + n % m;
    assert CQuot(a, b) * b == (if a >= 0 then q * m else -(q * m));
    if a >= 0 then n % m else -(n % m)
  }

  // ---------------------------------------------------------------------
  // The inline helpers

  /** `eucmodi` */
  function Eucmodi(a: int, base: int): int
    requires base != 0
  {
    var m := CRem(a, base);
    if m < 0 then m + base else m
  }

  /** For a positive base `eucmodi` is the Euclidean remainder: in [0, base) and congruent to `a`. */
  lemma EucmodiIsMod(a: int, base: int)
    requires 0 < base
    ensures 0 <= Eucmodi(a, base) < base && Eucmodi(a, base) == a % base
  {
    var m := CRem(a, base);
    if m < 0 {
      EuclideanUnique(a, base, CQuot(a, base) - 1, m + base);
    } else {
      EuclideanUnique(a, base, CQuot(a, base), m);
    }
  }

  /** `clampi` */
  function Clampi(x: int, min: int, max: int): (r: int)
    ensures min <= max ==> min <= r <= max
    ensures min <= x <= max ==> r == x
    ensures r == x || r == min || r == max
  {
    if x > max then max else if x < min then min else x
  }

  /** `clampf` */
  function Clampf(x: real, min: real, max: real): (r: real)
    ensures min <= max ==> min <= r <= max
    ensures min <= x <= max ==> r == x
    ensures r == x || r == min || r == max
  {
    if x > max then max else if x < min then min else x
  }

  /** `chopf`: values of magnitude below `eps` become 0. */
  function Chopf(x: real, eps: real): (r: real)
    ensures r == 0.0 || r == x
    ensures r != 0.0 ==> r <= -eps || eps <= r
    ensures (x <= -eps || eps <= x) ==> r == x
  {
    if -eps < x && x < eps then 0.0 else x
  }

  /** `rescalef` */
  function Rescalef(x: real, xMin: real, xMax: real, yMin: real, yMax: real): real
    requires xMax != xMin
  {
    yMin + (x - xMin) / (xMax - xMin) * (yMax - yMin)
  }

  /** `rescalef` is the affine map taking xMin to yMin and xMax to yMax. */
  lemma RescalefAffine(x: real, xMin: real, xMax: real, yMin: real, yMax: real)
    requires xMax != xMin
    ensures (Rescalef(x, xMin, xMax, yMin, yMax) - yMin) * (xMax - xMin) == (x - xMin) * (yMax - yMin)
    ensures Rescalef(xMin, xMin, xMax, yMin, yMax) == yMin
    ensures Rescalef(xMax, xMin, xMax, yMin, yMax) == yMax
  {
    var d := xMax - xMin;
    assert (x - xMin) / d * d == x - xMin;
    assert d / d == 1.0;
  }

  /** An increasing rescale maps the source interval into the target interval, strictly below the top when x is. */
  lemma RescalefBounds(x: real, xMin: real, xMax: real, yMin: real, yMax: real)
    requires xMin < xMax && yMin <= yMax && xMin <= x <= xMax
    ensures yMin <= Rescalef(x, xMin, xMax, yMin, yMax) <= yMax
    ensures x < xMax && yMin < yMax ==> Rescalef(x, xMin, xMax, yMin, yMax) < yMax
  {
    var d, e := xMax - xMin, yMax - yMin;
    var f := (x - xMin) / d;
    FractionBounds(x - xMin, d);
    MulNonneg(f, e);
    MulNonneg(1.0 - f, e);
    assert (1.0 - f) * e == e - f * e;
    if x < xMax && yMin < yMax {
      MulPos(1.0 - f, e);
    }
    assert Rescalef(x, xMin, xMax, yMin, yMax) == yMin + f * e;
  }

  /** n / d lies in [0, 1], and below 1 when n < d. */
  lemma FractionBounds(n: real, d: real)
    requires 0.0 <= n <= d && 0.0 < d
    ensures 0.0 <= n / d <= 1.0
    ensures n < d ==> n / d < 1.0
  {
    var f := n / d;
    assert f * d == n;
    if f < 0.0 {
      MulPos(-f, d);
    }
    if f >= 1.0 {
      MulNonneg(f - 1.0, d);
      assert (f - 1.0) * d == f * d - d;
    }
  }

  lemma SquareNonneg(x: real)
    ensures 0.0 <= x * x
  {
    if x < 0.0 {
      MulNonneg(-x, -x);
    } else {
      MulNonneg(x, x);
    }
  }

  /** The product of two values in [0, 1] lies in [0, 1]. */
  lemma MulUnit(a: real, b: real)
    requires 0.0 <= a <= 1.0 && 0.0 <= b <= 1.0
    ensures 0.0 <= a * b <= b <= 1.0
  {
    MulNonneg(a, b);
    MulNonneg(1.0 - a, b);
  }

  /** `crossf`: linear cross-fade from `a` (frac = 0) to `b` (frac = 1). */
  function Crossf(a: real, b: real, frac: real): (r: real)
    ensures frac == 0.0 ==> r == a
    ensures frac == 1.0 ==> r == b
    ensures 0.0 <= frac <= 1.0 && a <= b ==> a <= r <= b
    ensures 0.0 <= frac <= 1.0 && b <= a ==> b <= r <= a
  {
    var r := (1.0 - frac) * a + frac * b;
    CrossfBetween(a, b, frac, r);
    r
  }

  lemma CrossfBetween(a: real, b: real, frac: real, r: real)
    requires r == (1.0 - frac) * a + frac * b
    ensures 0.0 <= frac <= 1.0 && a <= b ==> a <= r <= b
    ensures 0.0 <= frac <= 1.0 && b <= a ==> b <= r <= a
  {
    assert r == a + frac * (b - a);
    assert r == b - (1.0 - frac) * (b - a);
    if 0.0 <= frac <= 1.0 {
      if a <= b {
        MulNonneg(frac, b - a);
        MulNonneg(1.0 - frac, b - a);
      } else {
        MulNonneg(frac, a - b);
        MulNonneg(1.0 - frac, a - b);
      }
    }
  }

  /** The condition under which `blep`/`blamp` never divide by zero. */
  predicate BandlimitDefined(t: real, dt: real)
  {
    (t < dt || t > 1.0 - dt) ==> dt != 0.0
  }

  /** `blep`: polynomial band-limited step residual. */
  function Blep(t: real, dt: real): real
    requires BandlimitDefined(t, dt)
  {
    if t < dt then
      -(t / dt - 1.0) * (t / dt - 1.0)
    else if t > 1.0 - dt then
      ((t - 1.0) / dt + 1.0) * ((t - 1.0) / dt + 1.0)
    else
      0.0
  }

  /** `blamp`: polynomial band-limited ramp residual. */
  function Blamp(t: real, dt: real): real
    requires BandlimitDefined(t, dt)
  {
    if t < dt then
      var u := t / dt - 1.0;
      -1.0 / 3.0 * u * u * u
    else if t > 1.0 - dt then
      var u := (t - 1.0) / dt + 1.0;
      1.0 / 3.0 * u * u * u
    else
      0.0
  }

  /** Away from the discontinuity both residuals vanish; at it they take their extreme values. */
  lemma BlepBlampShape(t: real, dt: real)
    requires 0.0 < dt <= 0.5
    ensures dt <= t <= 1.0 - dt ==> Blep(t, dt) == 0.0 && Blamp(t, dt) == 0.0
    ensures Blep(0.0, dt) == -1.0 && Blamp(0.0, dt) == 1.0 / 3.0
  {
  }

  /** On one period the step residual stays within [-1, 1]. */
  lemma BlepBounds(t: real, dt: real)
    requires 0.0 < dt <= 0.5 && 0.0 <= t <= 1.0
    ensures -1.0 <= Blep(t, dt) <= 1.0
  {
    if t < dt {
      var v := 1.0 - t / dt;
      FractionBounds(t, dt);
      assert Blep(t, dt) == -(v * v);
      MulNonneg(v, v);
      MulNonneg(1.0 - v, v);
    } else if t > 1.0 - dt {
      var u := (t - 1.0) / dt + 1.0;
      assert (t - 1.0) / dt * dt == t - 1.0;
      assert -1.0 < (t - 1.0) / dt <= 0.0;
      assert 0.0 < u <= 1.0;
      assert Blep(t, dt) == u * u;
      MulNonneg(u, u);
      MulNonneg(1.0 - u, u);
    }
  }

  /**
   * The indices `linterpf` reads are in bounds exactly when this holds:
   * it reads p[(int)x], and p[(int)x + 1] as well when x has a positive
   * fractional part.
   */
  predicate LinterpSafe(n: nat, x: real)
  {
    0 <= Trunc(x) < n && (x - Trunc(x) as real > 0.0 ==> Trunc(x) + 1 < n)
  }

  /** `linterpf`: linear interpolation of `p` at the fractional index `x`. */
  function Linterpf(p: seq<real>, x: real): (r: real)
    requires LinterpSafe(|p|, x)
    ensures x == Trunc(x) as real ==> r == p[Trunc(x)]
    ensures x != Trunc(x) as real && x > 0.0 ==>
              var i := Trunc(x);
              (p[i] <= p[i + 1] ==> p[i] <= r <= p[i + 1]) &&
              (p[i + 1] <= p[i] ==> p[i + 1] <= r <= p[i])
    ensures -1.0 < x < 0.0 ==> r == p[0]
  {
    var xi := Trunc(x);
    var xf := x - xi as real;
    if xf > 0.0 then Crossf(p[xi], p[xi + 1], xf) else p[xi]
  }

  /** Smallest integer not below `x`. */
  function Ceil(x: real): (n: int)
    ensures x <= n as real < x + 1.0
  {
    if x == x.Floor as real then x.Floor else x.Floor + 1
  }

  /** Index safety of `linterpf`, stated by the length it needs: more than ceil(x) elements. */
  lemma LinterpSafeIff(n: nat, x: real)
    ensures LinterpSafe(n, x) <==> -1.0 < x && Ceil(x) < n
  {
    var xi := Trunc(x);
    if x <= -1.0 {
      assert xi <= -1;
    } else if x <= 0.0 {
      assert xi == 0;
      assert Ceil(x) == 0;
    } else if x == x.Floor as real {
      assert xi == x.Floor;
      assert Ceil(x) == xi;
    } else {
      assert xi == x.Floor;
      assert Ceil(x) == xi + 1;
    }
  }

  /** The doc comment of `linterpf` asks for length ceil(x), one element too few. */
  lemma LinterpfDocBoundOneShort()
    ensures 1 >= Ceil(1.0) && !LinterpSafe(1, 1.0)
  {
    assert Trunc(1.0) == 1;
  }

  // ---------------------------------------------------------------------
  // normalize_array

  function SeqMin(s: seq<real>): (m: real)
    requires |s| > 0
    ensures forall i :: 0 <= i < |s| ==> m <= s[i]
    ensures exists i :: 0 <= i < |s| && m == s[i]
  {
    if |s| == 1 then s[0]
    else
      var m := SeqMin(s[..|s| - 1]);
      assert forall i :: 0 <= i < |s| - 1 ==> s[..|s| - 1][i] == s[i];
      if s[|s| - 1] < m then s[|s| - 1] else m
  }

  function SeqMax(s: seq<real>): (m: real)
    requires |s| > 0
    ensures forall i :: 0 <= i < |s| ==> s[i] <= m
    ensures exists i :: 0 <= i < |s| && m == s[i]
  {
    if |s| == 1 then s[0]
    else
      var m := SeqMax(s[..|s| - 1]);
      assert forall i :: 0 <= i < |s| - 1 ==> s[..|s| - 1][i] == s[i];
      if s[|s| - 1] > m then s[|s| - 1] else m
  }

  /**
   * The float `memset(data, empty, ...)` stores in every element: memset
   * converts `empty` to int and keeps its low byte. Only a zero byte gives 0.0.
   */
  function MemsetFill(lib: Lib, empty: real): real
  {
    var b := Trunc(empty) % 256;
    if b == 0 then 0.0 else lib.byteFill(b)
  }

  /** Whether the buffer's range reaches the 1e-6 threshold of `normalize_array`. */
  predicate IsSpread(s: seq<real>)
  {
    |s| > 0 && SeqMax(s) - SeqMin(s) >= 0.000001
  }

  /** What `normalize_array` leaves in a buffer holding `s`. */
  function Normalized(lib: Lib, s: seq<real>, newMin: real, newMax: real, empty: real): seq<real>
  {
    if IsSpread(s) then
      seq(|s|, i requires 0 <= i < |s| => Rescalef(s[i], SeqMin(s), SeqMax(s), newMin, newMax))
    else
      seq(|s|, _ => MemsetFill(lib, empty))
  }

  /**
   * A spread buffer is mapped into [newMin, newMax] with its minimum on
   * newMin and its maximum on newMax; a flat one is filled with one value.
   */
  lemma NormalizedShape(lib: Lib, s: seq<real>, newMin: real, newMax: real, empty: real)
    requires newMin <= newMax
    ensures |Normalized(lib, s, newMin, newMax, empty)| == |s|
    ensures IsSpread(s) ==>
              (forall i :: 0 <= i < |s| ==> newMin <= Normalized(lib, s, newMin, newMax, empty)[i] <= newMax) &&
              (forall i :: 0 <= i < |s| && s[i] == SeqMin(s) ==> Normalized(lib, s, newMin, newMax, empty)[i] == newMin) &&
              (forall i :: 0 <= i < |s| && s[i] == SeqMax(s) ==> Normalized(lib, s, newMin, newMax, empty)[i] == newMax)
    ensures !IsSpread(s) ==>
              forall i :: 0 <= i < |s| ==> Normalized(lib, s, newMin, newMax, empty)[i] == MemsetFill(lib, empty)
  {
    if IsSpread(s) {
      var lo, hi := SeqMin(s), SeqMax(s);
      forall i | 0 <= i < |s|
        ensures newMin <= Normalized(lib, s, newMin, newMax, empty)[i] <= newMax
      {
        RescalefBounds(s[i], lo, hi, newMin, newMax);
      }
      RescalefAffine(lo, lo, hi, newMin, newMax);
    }
  }

  /**
   * With the arguments every caller passes (-1, 1, 0.0) the result lies in
   * [-1, 1], and a flat buffer becomes all zeros.
   */
  lemma NormalizedUnit(lib: Lib, s: seq<real>)
    ensures forall i :: 0 <= i < |s| ==> -1.0 <= Normalized(lib, s, -1.0, 1.0, 0.0)[i] <= 1.0
    ensures !IsSpread(s) ==> forall i :: 0 <= i < |s| ==> Normalized(lib, s, -1.0, 1.0, 0.0)[i] == 0.0
  {
    NormalizedShape(lib, s, -1.0, 1.0, 0.0);
  }

  /** The min/max scan of `normalize_array`. */
  method ScanRange(data: array<real>) returns (min: real, max: real)
    requires data.Length > 0
    ensures min == SeqMin(data[..]) && max == SeqMax(data[..])
  {
    // The scan starts from -INFINITY / INFINITY; with at least one element
    // that is the same as starting from data[0].
    max, min := data[0], data[0];
    var i := 1;
    while i < data.Length
      invariant 1 <= i <= data.Length
      invariant max == SeqMax(data[..i]) && min == SeqMin(data[..i])
    {
      assert data[..i + 1][..i] == data[..i];
      if data[i] > max {
        max := data[i];
      }
      if data[i] < min {
        min := data[i];
      }
      i := i + 1;
    }
    assert data[..data.Length] == data[..];
  }

  /** `normalize_array(data, data.Length, newMin, newMax, empty)`. */
  method NormalizeArray(lib: Lib, data: array<real>, newMin: real, newMax: real, empty: real)
    modifies data
    ensures data[..] == Normalized(lib, old(data[..]), newMin, newMax, empty)
  {
    ghost var s := data[..];
    if data.Length == 0 {
      assert data[..] == Normalized(lib, s, newMin, newMax, empty);
      return;
    }
    var min, max := ScanRange(data);
    var i := 0;
    if max - min >= 0.000001 {
      while i < data.Length
        invariant 0 <= i <= data.Length
        invariant forall k :: 0 <= k < i ==> data[k] == Rescalef(s[k], min, max, newMin, newMax)
        invariant forall k :: i <= k < data.Length ==> data[k] == s[k]
      {
        data[i] := Rescalef(data[i], min, max, newMin, newMax);
        i := i + 1;
      }
    } else {
      var fill := MemsetFill(lib, empty);
      while i < data.Length
        invariant 0 <= i <= data.Length
        invariant forall k :: 0 <= k < i ==> data[k] == fill
      {
        data[i] := fill;
        i := i + 1;
      }
    }
    assert data[..] == Normalized(lib, s, newMin, newMax, empty);
  }

  // ---------------------------------------------------------------------
  // cmultf

  datatype Complex = Complex(re: real, im: real)

  /** The complex product `cmultf` computes. */
  function CMul(a: Complex, b: Complex): Complex
  {
    Complex(a.re * b.re - a.im * b.im, a.re * b.im + a.im * b.re)
  }

  function Norm2(a: Complex): real
  {
    a.re * a.re + a.im * a.im
  }

  /** The product is commutative and multiplies squared magnitudes. */
  lemma CMulProperties(a: Complex, b: Complex)
    ensures CMul(a, b) == CMul(b, a)
    ensures Norm2(CMul(a, b)) == Norm2(a) * Norm2(b)
  {
    var p := CMul(a, b);
    calc {
      Norm2(p);
      (a.re * b.re - a.im * b.im) * (a.re * b.re - a.im * b.im)
        + (a.re * b.im + a.im * b.re) * (a.re * b.im + a.im * b.re);
      a.re * a.re * b.re * b.re + a.im * a.im * b.im * b.im
        + a.re * a.re * b.im * b.im + a.im * a.im * b.re * b.re;
      (a.re * a.re + a.im * a.im) * (b.re * b.re + b.im * b.im);
    }
  }

  /**
   * `cmultf(&c[cr], &c[ci], ar, ai, br, bi)`: the inputs are passed by
   * value, so the outputs may alias the locations they were read from.
   */
  method Cmultf(c: array<real>, cr: nat, ci: nat, ar: real, ai: real, br: real, bi: real)
    requires cr < c.Length && ci < c.Length
    modifies c
    ensures c[..] == old(c[..])[cr := CMul(Complex(ar, ai), Complex(br, bi)).re]
                               [ci := CMul(Complex(ar, ai), Complex(br, bi)).im]
  {
    var p := CMul(Complex(ar, ai), Complex(br, bi));
    c[cr] := p.re;
    c[ci] := p.im;
  }

  // ---------------------------------------------------------------------
  // Arithmetic helpers: steps of the proofs above about real and integer
  // arithmetic, with no counterpart in WaveEdit itself

  /** Doubling a quotient: 2x / y = 2 * (x / y). */
  lemma TwiceFraction(x: real, y: real)
    requires y != 0.0
    ensures 2.0 * x / y == 2.0 * (x / y)
  {
    var f := x / y;
    assert f * y == x;
  }

  /** Scaling q <= x / y < q + 1 by y. */
  lemma QuotientBracket(x: real, y: real, z: real, q: real)
    requires 0.0 < y && z == x / y && q <= z < q + 1.0
    ensures q * y <= x < q * y + y
  {
    assert z * y == x;
    MulLe(q, z, y);
    MulLt(z, q + 1.0, y);
  }

  lemma MulLe(a: real, b: real, y: real)
    requires a <= b && 0.0 < y
    ensures a * y <= b * y
  {
    MulNonneg(b - a, y);
  }

  lemma MulLt(a: real, b: real, y: real)
    requires a < b && 0.0 < y
    ensures a * y < b * y
  {
    MulPos(b - a, y);
  }

  lemma DivMulCancel(a: real, b: real)
    requires b != 0.0
    ensures a / b * b == a
  {
  }

  lemma MulDivCancel(a: real, b: real)
    requires b != 0.0
    ensures a * b / b == a
  {
  }

  /** If a = q * b + r with 0 <= r < b, then q and r are the Euclidean quotient and remainder. */
  lemma EuclideanUnique(a: int, b: int, q: int, r: int)
    requires 0 < b && 0 <= r < b && a == q * b + r
    ensures a / b == q && a % b == r
  {
    var k := a / b - q;
    assert k * b == r - a % b;
  }

  lemma MulNonneg(x: real, y: real)
    requires 0.0 <= x && 0.0 <= y
    ensures 0.0 <= x * y
  {
  }

  lemma MulPos(x: real, y: real)
    requires 0.0 < x && 0.0 < y
    ensures 0.0 < x * y
  {
  }

  /** A positive product, stated over a named result so that no product term is unfolded. */
  lemma ProductPos(a: real, b: real, p: real)
    requires 0.0 < a && 0.0 < b && p == a * b
    ensures 0.0 < p
  {
  }

  /** A non-negative product, stated the same way. */
  lemma ProductNonneg(a: real, b: real, p: real)
    requires 0.0 <= a && 0.0 <= b && p == a * b
    ensures 0.0 <= p
  {
  }

  /** A fraction f in [0, 1] of d lies between 0 and d. */
  lemma ScaleWithin(f: real, d: real, p: real)
    requires 0.0 <= f <= 1.0 && p == f * d
    ensures 0.0 <= d ==> 0.0 <= p <= d
    ensures d <= 0.0 ==> d <= p <= 0.0
  {
    if 0.0 <= d {
      ProductNonneg(f, d, p);
      ProductNonneg(1.0 - f, d, d - p);
    } else {
      ProductNonneg(f, -d, -p);
      ProductNonneg(1.0 - f, -d, p - d);
    }
  }

}
