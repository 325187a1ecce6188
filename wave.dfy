/**
 * The Wave struct of src/wave.cpp and its operations: analysis of the
 * samples into spectrum and harmonics, updatePost, the commit, effect and
 * morph operations, copy, and the clipboard with its `clipboardActive` flag.
 *
 * A Wave is a class whose fields the methods update in place. `State()`
 * reads all fields as one value; each method states its new state as a
 * function of its old one (`Posted`, `Committed`, ...), and the properties
 * of those functions are proved as lemmas.
 */
module WaveModel {
  import opened Kernels
  import opened PostProcess

  datatype WaveState = WaveState(
    samples: Buffer,
    spectrum: Buffer,
    harmonics: HalfBuffer,
    postSamples: Buffer,
    postSpectrum: Buffer,
    postHarmonics: HalfBuffer,
    effects: Effects,
    cycle: bool,
    normalize: bool)

  /** The wave `memset(this, 0, sizeof(Wave))` and a zero initialiser leave. */
  function ZeroState(): WaveState
  {
    WaveState(Zeros(), Zeros(), HalfZeros(), Zeros(), Zeros(), HalfZeros(), NoEffects(), false, false)
  }

  // ---------------------------------------------------------------------
  // Spectrum to harmonics (src/wave.cpp:377-380, 386-389)

  /** Harmonic i is twice the magnitude of interleaved bin i. */
  function HarmonicsOf(lib: Lib, spectrum: Buffer): HalfBuffer
  {
    seq(WAVE_LEN / 2, i requires 0 <= i < WAVE_LEN / 2 => lib.hypot(spectrum[2 * i], spectrum[2 * i + 1]) * 2.0)
  }

  /** Each harmonic is non-negative and its square is four times the bin's squared magnitude. */
  lemma HarmonicsAreMagnitudes(lib: Lib, spectrum: Buffer)
    requires lib.Valid()
    ensures forall i :: 0 <= i < WAVE_LEN / 2 ==>
              var h := HarmonicsOf(lib, spectrum)[i];
              h >= 0.0 && h * h == 4.0 * Norm2(Complex(spectrum[2 * i], spectrum[2 * i + 1]))
  {
    forall i | 0 <= i < WAVE_LEN / 2
      ensures HarmonicsOf(lib, spectrum)[i] >= 0.0
      ensures HarmonicsOf(lib, spectrum)[i] * HarmonicsOf(lib, spectrum)[i]
              == 4.0 * Norm2(Complex(spectrum[2 * i], spectrum[2 * i + 1]))
    {
      var m := lib.hypot(spectrum[2 * i], spectrum[2 * i + 1]);
      assert m * m == spectrum[2 * i] * spectrum[2 * i] + spectrum[2 * i + 1] * spectrum[2 * i + 1];
      assert (m * 2.0) * (m * 2.0) == 4.0 * (m * m);
    }
  }

  /** The harmonics loop. */
  method ComputeHarmonics(lib: Lib, spectrum: Buffer) returns (harmonics: HalfBuffer)
    ensures harmonics == HarmonicsOf(lib, spectrum)
  {
    var h := HalfZeros();
    for i := 0 to WAVE_LEN / 2
      invariant |h| == WAVE_LEN / 2
      invariant forall k :: 0 <= k < i ==> h[k] == lib.hypot(spectrum[2 * k], spectrum[2 * k + 1]) * 2.0
    {
      h := h[i := lib.hypot(spectrum[2 * i], spectrum[2 * i + 1]) * 2.0];
    }
    harmonics := h;
  }

  // ---------------------------------------------------------------------
  // State transformers

  /** The state after updatePost: only the three post fields change, and postSamples lies in [-1, 1]. */
  function Posted(lib: Lib, w: WaveState): (r: WaveState)
    requires lib.Valid() && PostDefined(w.effects)
    ensures r.samples == w.samples && r.spectrum == w.spectrum && r.harmonics == w.harmonics
    ensures r.effects == w.effects && r.cycle == w.cycle && r.normalize == w.normalize
    ensures InRange(r.postSamples, -1.0, 1.0)
    ensures r.postSpectrum == lib.rfft(r.postSamples)
  {
    var post := PostOut(lib, w.samples, w.effects, w.cycle, w.normalize);
    var ps := lib.rfft(post);
    w.(postSamples := post, postSpectrum := ps, postHarmonics := HarmonicsOf(lib, ps))
  }

  /** Spectrum and harmonics recomputed from the samples. */
  function Analyzed(lib: Lib, w: WaveState): WaveState
  {
    var s := lib.rfft(w.samples);
    w.(spectrum := s, harmonics := HarmonicsOf(lib, s))
  }

  /** The state after commitSamples. */
  function Committed(lib: Lib, w: WaveState): WaveState
    requires lib.Valid() && PostDefined(w.effects)
  {
    Posted(lib, Analyzed(lib, w))
  }

  /** A committed wave has consistent spectrum and harmonics, and its effects, flags and samples are kept. */
  lemma CommittedConsistent(lib: Lib, w: WaveState)
    requires lib.Valid() && PostDefined(w.effects)
    ensures var r := Committed(lib, w);
            r.samples == w.samples && r.effects == w.effects && r.cycle == w.cycle && r.normalize == w.normalize &&
            r.spectrum == lib.rfft(r.samples) && r.harmonics == HarmonicsOf(lib, r.spectrum) &&
            r.postHarmonics == HarmonicsOf(lib, r.postSpectrum) && InRange(r.postSamples, -1.0, 1.0)
  {
  }

  /** Committing a cleared wave: no gate opens, so the post samples are all zero. */
  lemma CommittedZeroIsSilent(lib: Lib)
    requires lib.Valid()
    ensures PostDefined(ZeroState().effects)
    ensures Committed(lib, ZeroState()).postSamples == Zeros()
    ensures Committed(lib, ZeroState()).samples == Zeros()
  {
    PostOutBypass(lib, Zeros(), NoEffects());
    assert Clipped(Zeros()) == Zeros();
  }

  /** The state after clearEffects: every effect 0, cycle off, normalize ON, then updatePost. */
  function ClearedEffects(lib: Lib, w: WaveState): WaveState
    requires lib.Valid()
  {
    var c := w.(effects := NoEffects(), cycle := false, normalize := true);
    PostOutNormalizeOnly(lib, c.samples, c.effects);
    Posted(lib, c)
  }

  /** After clearEffects only normalization is applied: the post samples are the normalized samples. */
  lemma ClearedEffectsNormalizes(lib: Lib, w: WaveState)
    requires lib.Valid()
    ensures ClearedEffects(lib, w).postSamples == Normalized(lib, w.samples, -1.0, 1.0, 0.0)
    ensures !IsSpread(w.samples) ==> ClearedEffects(lib, w).postSamples == Zeros()
  {
    PostOutNormalizeOnly(lib, w.samples, NoEffects());
  }

  /** The state after bakeEffects: the post samples become the samples, effects are cleared, and the wave is committed. */
  function Baked(lib: Lib, w: WaveState): WaveState
    requires lib.Valid()
  {
    var c := ClearedEffects(lib, w.(samples := w.postSamples));
    Committed(lib, c)
  }

  /**
   * Baking keeps the rendered wave as the new samples with no effects, and
   * the result still passes through normalization, because clearEffects
   * turns normalize on.
   */
  lemma BakedState(lib: Lib, w: WaveState)
    requires lib.Valid()
    ensures var r := Baked(lib, w);
            r.samples == w.postSamples && r.effects == NoEffects() && !r.cycle && r.normalize &&
            r.postSamples == Normalized(lib, w.postSamples, -1.0, 1.0, 0.0)
  {
    PostOutNormalizeOnly(lib, w.postSamples, NoEffects());
  }

  // ---------------------------------------------------------------------
  // commitHarmonics (src/wave.cpp:393-425)

  /** The new value of bin i: the requested magnitude h / 2 with the old phase, or at 90 degrees when there is none. */
  function CommitBin(lib: Lib, re: real, im: real, h: real, dc: bool): Complex
  {
    var oldHarmonic := lib.hypot(re, im);
    var newHarmonic := h / 2.0;
    if oldHarmonic > 0.000001 then
      var ratio := newHarmonic / oldHarmonic;
      if dc then Complex(re * ratio, 0.0) else Complex(re * ratio, im * ratio)
    else if dc then Complex(newHarmonic, 0.0)
    else Complex(0.0, -newHarmonic)
  }

  /**
   * A non-DC bin always gets squared magnitude (h/2)^2, along its old
   * direction when it had one (h >= 0); the DC bin stays real.
   */
  lemma CommitBinMagnitude(lib: Lib, re: real, im: real, h: real, dc: bool)
    requires lib.Valid()
    ensures var b := CommitBin(lib, re, im, h, dc);
            (!dc ==> Norm2(b) == (h / 2.0) * (h / 2.0)) &&
            (dc ==> b.im == 0.0) &&
            (lib.hypot(re, im) <= 0.000001 ==> b == if dc then Complex(h / 2.0, 0.0) else Complex(0.0, -h / 2.0)) &&
            (!dc && lib.hypot(re, im) > 0.000001 && h >= 0.0 ==> b.re * im == b.im * re && 0.0 <= b.re * re + b.im * im)
  {
    var m := lib.hypot(re, im);
    if m > 0.000001 && !dc {
      var r := (h / 2.0) / m;
      assert m * m == re * re + im * im;
      DivMulCancel(h / 2.0, m);
      assert r * m == h / 2.0;
      assert (re * r) * (re * r) + (im * r) * (im * r) == (r * r) * (re * re + im * im);
      assert (r * r) * (m * m) == (r * m) * (r * m);
      if h >= 0.0 {
        FractionBounds(0.0, m);
        assert r >= 0.0 by {
          if r < 0.0 {
            MulPos(-r, m);
          }
        }
        assert (re * r) * re + (im * r) * im == r * (re * re + im * im);
        MulNonneg(r, re * re + im * im);
        SquareNonneg(re);
        SquareNonneg(im);
      }
    }
  }

  /** The rescaled spectrum: each interleaved pair replaced by its CommitBin. */
  function CommittedSpectrum(lib: Lib, spectrum: Buffer, harmonics: HalfBuffer): Buffer
  {
    seq(WAVE_LEN, j requires 0 <= j < WAVE_LEN =>
      var k := j / 2;
      var b := CommitBin(lib, spectrum[2 * k], spectrum[2 * k + 1], harmonics[k], k == 0);
      if j % 2 == 0 then b.re else b.im)
  }

  /** For every non-DC bin with a non-negative request, the harmonics of the new spectrum are exactly the requested ones. */
  lemma CommittedSpectrumHarmonics(lib: Lib, spectrum: Buffer, harmonics: HalfBuffer)
    requires lib.Valid()
    ensures forall k :: 1 <= k < WAVE_LEN / 2 && harmonics[k] >= 0.0 ==>
              HarmonicsOf(lib, CommittedSpectrum(lib, spectrum, harmonics))[k] == harmonics[k]
  {
    forall k | 1 <= k < WAVE_LEN / 2 && harmonics[k] >= 0.0
      ensures HarmonicsOf(lib, CommittedSpectrum(lib, spectrum, harmonics))[k] == harmonics[k]
    {
      CommittedBinHarmonic(lib, spectrum, harmonics, k);
    }
  }

  lemma CommittedBinHarmonic(lib: Lib, spectrum: Buffer, harmonics: HalfBuffer, k: nat)
    requires lib.Valid() && 1 <= k < WAVE_LEN / 2 && harmonics[k] >= 0.0
    ensures HarmonicsOf(lib, CommittedSpectrum(lib, spectrum, harmonics))[k] == harmonics[k]
  {
    var c := CommittedSpectrum(lib, spectrum, harmonics);
    var b := CommitBin(lib, spectrum[2 * k], spectrum[2 * k + 1], harmonics[k], false);
    CommittedSpectrumAt(lib, spectrum, harmonics, k);
    CommitBinHypot(lib, spectrum[2 * k], spectrum[2 * k + 1], harmonics[k]);
    HarmonicOfBin(lib, c, k, b.re, b.im, harmonics[k] / 2.0);
  }

  lemma HarmonicOfBin(lib: Lib, c: Buffer, k: nat, x: real, y: real, q: real)
    requires k < WAVE_LEN / 2 && c[2 * k] == x && c[2 * k + 1] == y && lib.hypot(x, y) == q
    ensures HarmonicsOf(lib, c)[k] == q * 2.0
  {
  }

  /** Bin k of the rescaled spectrum sits at indices 2k and 2k+1. */
  lemma CommittedSpectrumAt(lib: Lib, spectrum: Buffer, harmonics: HalfBuffer, k: nat)
    requires k < WAVE_LEN / 2
    ensures var b := CommitBin(lib, spectrum[2 * k], spectrum[2 * k + 1], harmonics[k], k == 0);
            CommittedSpectrum(lib, spectrum, harmonics)[2 * k] == b.re &&
            CommittedSpectrum(lib, spectrum, harmonics)[2 * k + 1] == b.im
  {
    assert (2 * k) / 2 == k && (2 * k) % 2 == 0;
    assert (2 * k + 1) / 2 == k && (2 * k + 1) % 2 == 1;
  }

  /** A non-DC bin rescaled to a request h >= 0 has hypot h / 2. */
  lemma CommitBinHypot(lib: Lib, re: real, im: real, h: real)
    requires lib.Valid() && 0.0 <= h
    ensures var b := CommitBin(lib, re, im, h, false);
            lib.hypot(b.re, b.im) == h / 2.0
  {
    CommitBinMagnitude(lib, re, im, h, false);
    HypotOfSquare(lib, CommitBin(lib, re, im, h, false), h / 2.0);
  }

  /** A number whose squared norm is q^2 has hypot q, for q >= 0. */
  lemma HypotOfSquare(lib: Lib, b: Complex, q: real)
    requires lib.Valid() && 0.0 <= q && Norm2(b) == q * q
    ensures lib.hypot(b.re, b.im) == q
  {
    var m := lib.hypot(b.re, b.im);
    assert m >= 0.0 && m * m == b.re * b.re + b.im * b.im;
    SquareRootUnique(m, q);
  }

  /** Two non-negative numbers with equal squares are equal. */
  lemma SquareRootUnique(x: real, y: real)
    requires 0.0 <= x && 0.0 <= y && x * x == y * y
    ensures x == y
  {
    assert (x - y) * (x + y) == x * x - y * y;
    ZeroProduct(x - y, x + y);
  }

  lemma ZeroProduct(a: real, b: real)
    requires a * b == 0.0
    ensures a == 0.0 || b == 0.0
  {
    if a != 0.0 {
      MulDivCancel(b, a);
      assert b * a == a * b;
    }
  }

  /** The bin loop of commitHarmonics. */
  method RescaleSpectrum(lib: Lib, s0: Buffer, harmonics: HalfBuffer) returns (spectrum: Buffer)
    ensures spectrum == CommittedSpectrum(lib, s0, harmonics)
  {
    spectrum := s0;
    for i := 0 to WAVE_LEN / 2
      invariant forall k :: 0 <= k < i ==>
        var b := CommitBin(lib, s0[2 * k], s0[2 * k + 1], harmonics[k], k == 0);
        spectrum[2 * k] == b.re && spectrum[2 * k + 1] == b.im
      invariant forall k :: i <= k < WAVE_LEN / 2 ==> spectrum[2 * k] == s0[2 * k] && spectrum[2 * k + 1] == s0[2 * k + 1]
    {
      var oldHarmonic := lib.hypot(spectrum[2 * i], spectrum[2 * i + 1]);
      var newHarmonic := harmonics[i] / 2.0;
      var re, im;
      if oldHarmonic > 0.000001 {
        // Preserve the old phase, apply the new magnitude.
        var ratio := newHarmonic / oldHarmonic;
        if i == 0 {
          re, im := spectrum[2 * i] * ratio, 0.0;
        } else {
          re, im := spectrum[2 * i] * ratio, spectrum[2 * i + 1] * ratio;
        }
      } else {
        // No old phase: set the bin to 90 degrees.
        if i == 0 {
          re, im := newHarmonic, 0.0;
        } else {
          re, im := 0.0, -newHarmonic;
        }
      }
      assert Complex(re, im) == CommitBin(lib, s0[2 * i], s0[2 * i + 1], harmonics[i], i == 0);
      spectrum := spectrum[2 * i := re][2 * i + 1 := im];
    }
    forall j | 0 <= j < WAVE_LEN
      ensures spectrum[j] == CommittedSpectrum(lib, s0, harmonics)[j]
    {
      var k := j / 2;
      if j % 2 == 0 {
        assert j == 2 * k;
      } else {
        assert j == 2 * k + 1;
      }
    }
  }

  /** The state after commitHarmonics. */
  function HarmonicsCommitted(lib: Lib, w: WaveState): WaveState
    requires lib.Valid() && PostDefined(w.effects)
  {
    var s := CommittedSpectrum(lib, w.spectrum, w.harmonics);
    Posted(lib, w.(spectrum := s, samples := lib.irfft(s)))
  }

  // ---------------------------------------------------------------------
  // Morphing (src/wave.cpp:447-457)

  /** The effects after morphEffect: only slot `effect` changes. */
  function MorphedEffect(e: Effects, from: Effects, to: Effects, effect: nat, fade: real): (r: Effects)
    requires effect < EFFECTS_LEN
    ensures forall i :: 0 <= i < EFFECTS_LEN && i != effect ==> r[i] == e[i]
    ensures fade == 0.0 ==> r[effect] == from[effect]
    ensures fade == 1.0 ==> r[effect] == to[effect]
    ensures 0.0 <= fade <= 1.0 && 0.0 <= from[effect] <= 1.0 && 0.0 <= to[effect] <= 1.0 ==> 0.0 <= r[effect] <= 1.0
  {
    e[effect := Crossf(from[effect], to[effect], fade)]
  }

  /** The effects after morphAllEffects: the slot-wise cross-fade of the two sources. */
  function MorphedAll(from: Effects, to: Effects, fade: real): (r: Effects)
    ensures fade == 0.0 ==> r == from
    ensures fade == 1.0 ==> r == to
    ensures forall i :: 0 <= i < EFFECTS_LEN && from[i] == to[i] ==> r[i] == from[i]
  {
    var r := seq(EFFECTS_LEN, i requires 0 <= i < EFFECTS_LEN => Crossf(from[i], to[i], fade));
    CrossfSame(from, to, fade, r);
    r
  }

  lemma CrossfSame(from: Effects, to: Effects, fade: real, r: seq<real>)
    requires r == seq(EFFECTS_LEN, i requires 0 <= i < EFFECTS_LEN => Crossf(from[i], to[i], fade))
    ensures fade == 0.0 ==> r == from
    ensures fade == 1.0 ==> r == to
    ensures forall i :: 0 <= i < EFFECTS_LEN && from[i] == to[i] ==> r[i] == from[i]
  {
    forall i | 0 <= i < EFFECTS_LEN && from[i] == to[i]
      ensures r[i] == from[i]
    {
      var a := from[i];
      assert (1.0 - fade) * a + fade * a == a;
    }
  }

  /** Morphing with sources whose cubic-distortion amounts are in [0, 1] and a fade in [0, 1] keeps updatePost defined. */
  lemma MorphKeepsDefined(e: Effects, from: Effects, to: Effects, fade: real)
    requires 0.0 <= fade <= 1.0
    requires 0.0 <= from[CUBIC_DISTORTION] <= 1.0 && 0.0 <= to[CUBIC_DISTORTION] <= 1.0
    requires 0.0 <= e[CUBIC_DISTORTION] <= 1.0
    ensures forall k :: 0 <= k < EFFECTS_LEN ==> PostDefined(MorphedEffect(e, from, to, k, fade))
    ensures PostDefined(MorphedAll(from, to, fade))
  {
  }

  // ---------------------------------------------------------------------
  // The Wave struct

  class Wave {
    var samples: Buffer
    /** FFT of the wave, interleaved complex numbers. */
    var spectrum: Buffer
    /** Norm of the spectrum. */
    var harmonics: HalfBuffer
    /** The wave after the effects have been applied. */
    var postSamples: Buffer
    var postSpectrum: Buffer
    var postHarmonics: HalfBuffer
    var effects: Effects
    var cycle: bool
    var normalize: bool

    function State(): WaveState
      reads this
    {
      WaveState(samples, spectrum, harmonics, postSamples, postSpectrum, postHarmonics, effects, cycle, normalize)
    }

    /** A zero-initialised wave, as the static `clipboardWave = {}`. */
    constructor()
      ensures State() == ZeroState()
    {
      samples, spectrum, harmonics := Zeros(), Zeros(), HalfZeros();
      postSamples, postSpectrum, postHarmonics := Zeros(), Zeros(), HalfZeros();
      effects, cycle, normalize := NoEffects(), false, false;
    }

    /** `clear`: memset of the whole struct to zero. */
    method Clear()
      modifies this
      ensures State() == ZeroState()
    {
      samples, spectrum, harmonics := Zeros(), Zeros(), HalfZeros();
      postSamples, postSpectrum, postHarmonics := Zeros(), Zeros(), HalfZeros();
      effects, cycle, normalize := NoEffects(), false, false;
    }

    /** `updatePost` */
    method UpdatePost(lib: Lib)
      requires lib.Valid() && PostDefined(effects)
      modifies this
      ensures State() == Posted(lib, old(State()))
    {
      var out := RunPipeline(lib, samples, effects, cycle, normalize);
      postSamples := out;
      postSpectrum := lib.rfft(postSamples);
      postHarmonics := ComputeHarmonics(lib, postSpectrum);
    }

    /** `commitSamples` */
    method CommitSamples(lib: Lib)
      requires lib.Valid() && PostDefined(effects)
      modifies this
      ensures State() == Committed(lib, old(State()))
    {
      spectrum := lib.rfft(samples);
      harmonics := ComputeHarmonics(lib, spectrum);
      UpdatePost(lib);
    }

    /** `commitHarmonics` */
    method CommitHarmonics(lib: Lib)
      requires lib.Valid() && PostDefined(effects)
      modifies this
      ensures State() == HarmonicsCommitted(lib, old(State()))
    {
      spectrum := RescaleSpectrum(lib, spectrum, harmonics);
      samples := lib.irfft(spectrum);
      UpdatePost(lib);
    }

    /** `clearEffects` */
    method ClearEffects(lib: Lib)
      requires lib.Valid()
      modifies this
      ensures State() == ClearedEffects(lib, old(State()))
    {
      effects := NoEffects();
      cycle := false;
      normalize := true;
      UpdatePost(lib);
    }

    /** `bakeEffects` */
    method BakeEffects(lib: Lib)
      requires lib.Valid()
      modifies this
      ensures State() == Baked(lib, old(State()))
    {
      samples := postSamples;
      ClearEffects(lib);
      CommitSamples(lib);
    }

    /** `morphEffect`: `from` and `to` may be this wave; they are read before anything is written. */
    method MorphEffect(lib: Lib, from: Wave, to: Wave, effect: nat, fade: real)
      requires lib.Valid() && effect < EFFECTS_LEN
      requires PostDefined(MorphedEffect(effects, from.effects, to.effects, effect, fade))
      modifies this
      ensures State() == Posted(lib, old(State()).(effects :=
                MorphedEffect(old(effects), old(from.effects), old(to.effects), effect, fade)))
    {
      var e := MorphedEffect(effects, from.effects, to.effects, effect, fade);
      effects := e;
      UpdatePost(lib);
    }

    /**
     * `morphAllEffects`. When `from` or `to` is this wave, slot i is read in
     * iteration i before it is overwritten, so the result is the same as
     * reading the old values.
     */
    method MorphAllEffects(lib: Lib, from: Wave, to: Wave, fade: real)
      requires lib.Valid()
      requires PostDefined(MorphedAll(from.effects, to.effects, fade))
      modifies this
      ensures State() == Posted(lib, old(State()).(effects := MorphedAll(old(from.effects), old(to.effects), fade)))
    {
      ghost var f0, t0 := from.effects, to.effects;
      for i := 0 to EFFECTS_LEN
        invariant forall k :: 0 <= k < i ==> effects[k] == Crossf(f0[k], t0[k], fade)
        invariant forall k :: i <= k < EFFECTS_LEN ==> from.effects[k] == f0[k] && to.effects[k] == t0[k]
        invariant samples == old(samples) && spectrum == old(spectrum) && harmonics == old(harmonics)
        invariant postSamples == old(postSamples) && postSpectrum == old(postSpectrum)
        invariant postHarmonics == old(postHarmonics) && cycle == old(cycle) && normalize == old(normalize)
      {
        effects := effects[i := Crossf(from.effects[i], to.effects[i], fade)];
      }
      assert effects == MorphedAll(f0, t0, fade);
      UpdatePost(lib);
    }

    /** `copy(src)`: this wave becomes a byte-for-byte copy of `src`. */
    method Copy(src: Wave)
      modifies this
      ensures State() == old(src.State())
    {
      samples, spectrum, harmonics := src.samples, src.spectrum, src.harmonics;
      postSamples, postSpectrum, postHarmonics := src.postSamples, src.postSpectrum, src.postHarmonics;
      effects, cycle, normalize := src.effects, src.cycle, src.normalize;
    }
  }

  // ---------------------------------------------------------------------
  // Clipboard (src/wave.cpp:6-7, 635-648)

  /** The static `clipboardWave` and the global `clipboardActive` flag. */
  class Clipboard {
    const wave: Wave
    var active: bool

    constructor()
      ensures !active && fresh(wave) && wave.State() == ZeroState()
    {
      wave := new Wave();
      active := false;
    }

    /** `w.clipboardCopy()`: snapshot w and raise the flag. */
    method Copy(w: Wave)
      requires w != wave
      modifies this, wave
      ensures active
      ensures wave.State() == old(w.State()) && w.State() == old(w.State())
    {
      wave.Copy(w);
      active := true;
    }

    /**
     * `w.clipboardPaste()`: while the flag is down the wave is untouched;
     * once raised, the wave becomes the snapshot. Neither the flag nor the
     * snapshot changes.
     */
    method Paste(w: Wave)
      requires w != wave
      modifies w
      ensures active ==> w.State() == wave.State()
      ensures !active ==> w.State() == old(w.State())
      ensures wave.State() == old(wave.State())
    {
      if active {
        w.Copy(wave);
      }
    }
  }
}
