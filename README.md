# WaveEdit engine in Dafny

This project models the sequential engine that lives under WaveEdit's
wavetable editor. 

**Data model**

- **Waves**: a wave is 256 float samples, plus the spectrum and harmonics derived from them. It carries 30 effect parameters, and `updatePost` turns the samples into post-processed samples.
- **Bank**: a bank holds 256 waves. It can be shuffled, flattened and written as an Intel-HEX-style ROM image.
- **Base waves**: two base-wave generators draw a waveform from oscillator shapes, read through a phasor built from control points. Each generator broadcasts its result into every wave of the bank.
- **Numbers**: floats are mathematical reals.
- **Exact C arithmetic**: C's integer `/` and `%`, float-to-int conversion, `roundf` and `fmod` are defined exactly.
- **Opaque library functions**: libm's transcendental functions, the FFT pair, the spectral stages of `updatePost` and the unseen oscillator API are fields of the `Lib` datatype (`kernels.dfy`). `Lib.Valid()` states the few true facts about them that the proofs use:
  - `pow` of a positive base is positive;
  - `pow(x, y) >= 1` for a base in (0, 1] and an exponent y <= 0;
  - `hypot` is non-negative and its square is the sum of squares;
  - on [0, pi/4], 0 <= sin t <= cos t and cos t > 0;
  - on (pi/4, pi/2], sin t > 0.

**Modules**

- `Kernels` (`kernels.dfy`): constants, buffer types and the helpers `eucmodi`, `clampi`, `clampf`, `chopf`, `rescalef`, `crossf`, `blep`, `blamp`, `linterpf`, `normalize_array` and `cmultf`.
- `PostProcess` (`post.dfy`): the 30 effect parameters and the 18 gated stages of `Wave::updatePost`, in source order.
  - Each stage has a specification function (`...Step`, gate included) and a method that runs the stage in place on the local `out` array.
  - `PostOut` is the whole pipeline followed by the hard clip.
- `WaveModel` (`wave.dfy`): the `Wave` struct as a class, with:
  - `clear`, `updatePost`, `commitSamples`, `commitHarmonics` and its per-bin magnitude/phase rule;
  - `clearEffects`, `bakeEffects`, `morphEffect`, `morphAllEffects` and `copy`;
  - the clipboard with its `clipboardActive` flag.
- `BankLayout` and `BankModel` (`bank.dfy`):
  - the slot operations `swap`, `shuffle` and `duplicateToAll`;
  - the flat-buffer layout of `setSamples` and `getPostSamples`;
  - `clear`, and `saveROM`/`loadROM` around the ROM serialiser.
- `RomFormat` (`rom.dfy`): the PHMK2 ROM records as pure functions over characters and lines.
  - Each record has a 16-byte data length and the address `(i*16+j)*16`.
  - The checksum is the code's one's complement.
  - The loader skips every line whose type field is not "00".
- `BaseWaveModel` (`basewave.dfy`): the `BaseWave` generator as a class, with:
  - `clear`, shape-index selection in `generateShape` and `updatePhasor` (control points, line segments, Bezier raster);
  - `generateSamples` (resonance sync phase and envelope, normalization, harmonics);
  - `updateSamples` (the broadcast into every bank slot).
- `OscillatorModel` (`oscillator.dfy`): the seven generators, `getWave` and `render`, as methods over arrays.
  - Each method is proved equal to a specification function.
  - Per-shape lemmas state the levels, bounds and monotonicity of the drawn samples, and which halves a generator writes.

**Worth noting**

- `Bank::shuffle` can move slots 0-2. Its loop swaps slot j >= 3 with `rand() % j`, which can be 0, 1 or 2. `BankLayout.ShuffleMovesLowSlots` exhibits this.
- `Wave::clearEffects` sets `normalize` to true, not false (`WaveModel.BakedState`, `WaveModel.ClearedEffectsNormalizes`).
- The checksum `0xFF - (sum & 0xFF)` of `saveROM` is the one's complement. The Intel Hexadecimal Object File Format Specification, Rev. A ("General Record Format"), prescribes the two's complement. `RomFormat.ChecksumIsOnesComplement` proves both sums and how the two checksums relate.
- `BaseWave::generateSamples` takes no argument and always broadcasts. The header declares `generateSamples(bool)`; the model follows the `.cpp`.
- The doc comment of `linterpf` asks for an array "of length at least ceil(x)". The reads need length ceil(x) + 1 for fractional x, and length (int)x + 1 for whole x. `Kernels.LinterpSafeIff` gives the exact condition, and `Kernels.LinterpfDocBoundOneShort` shows an input that meets the comment but reads past the end.
- The phase-distortion stage cross-fades by `CUBIC_DISTORTION` without clamping it. Its reads stay in bounds for every value in [-1/2, 4) (`PostProcess.FinalPhaseBelowFour`). At 4 the final phase of sample 64 is exactly 1, and the stage reads `tmp[WAVE_LEN + 1]`, one past the end (`PostProcess.DistortionReadsPastEndAtFour`). `updatePost` requires `PostDefined(effects)`, which keeps CUBIC_DISTORTION in [0, 1] when the stage's gate is open. That is the range the sliders, `morphEffect` and `clearEffects` produce.

## Model

| member | source | states |
|---|---|---|
| Kernels.Trunc | src/WaveEdit.hpp:98 | the float-to-int conversion truncates toward zero: the floor for x >= 0, the ceiling for x <= 0 |
| Kernels.Roundf | src/wave.cpp:220 | `roundf` lies within 1/2 of x, with halves rounded away from zero |
| Kernels.RoundfInteger | src/wave.cpp:245 | `roundf` leaves a whole number unchanged |
| Kernels.FmodBounds | src/basewave.cpp:97-100 | `fmod(x, y)` of a non-negative x and positive y lies in [0, y) |
| Kernels.CRem | src/WaveEdit.hpp:27 | C's `%`: (a / b) * b + a % b == a, with the remainder taking the dividend's sign and smaller in size than b |
| Kernels.EucmodiIsMod | src/WaveEdit.hpp:26-29 | for base > 0, `eucmodi(a, base)` lies in [0, base) and equals the Euclidean a mod base |
| Kernels.Clampi | src/WaveEdit.hpp:40-42 | the result is x, min or max; it lies in [min, max] when min <= max, and is x when x is inside |
| Kernels.Clampf | src/WaveEdit.hpp:51-53 | the same three facts for floats |
| Kernels.Chopf | src/WaveEdit.hpp:57-59 | the result is 0 or x; it is x whenever abs(x) >= eps, and a non-zero result has magnitude at least eps |
| Kernels.RescalefAffine | src/WaveEdit.hpp:61-63 | for xMax != xMin, `rescalef` is the affine map taking xMin to yMin and xMax to yMax |
| Kernels.RescalefBounds | src/WaveEdit.hpp:61-63 | an x in [xMin, xMax] maps into [yMin, yMax], strictly below yMax when x < xMax |
| Kernels.Crossf | src/WaveEdit.hpp:65-67 | `crossf(a, b, 0) = a` and `crossf(a, b, 1) = b`; for frac in [0, 1] the result lies between a and b |
| Kernels.BlepBlampShape | src/WaveEdit.hpp:71-91 | for 0 < dt <= 1/2 both residuals are 0 on [dt, 1 - dt]; `blep(0, dt) = -1` and `blamp(0, dt) = 1/3` |
| Kernels.BlepBounds | src/WaveEdit.hpp:71-79 | on one period, `blep` stays in [-1, 1] |
| Kernels.Linterpf | src/WaveEdit.hpp:97-110 | at a whole index, the result is exactly that element; at a positive fractional index, it lies between the two neighbours; for x in (-1, 0) the cast truncates to 0 and the result is p[0] |
| Kernels.LinterpSafeIff | src/WaveEdit.hpp:94-103 | the reads are in bounds exactly when -1 < x and ceil(x) < length |
| Kernels.LinterpfDocBoundOneShort | src/WaveEdit.hpp:94-96 | length 1 >= ceil(1.0) meets the doc comment, yet reading index 1.0 would be out of bounds |
| Kernels.SeqMin | src/WaveEdit.hpp:114-119 | the minimum the scan finds is below every element and is one of them |
| Kernels.SeqMax | src/WaveEdit.hpp:114-119 | the maximum the scan finds is above every element and is one of them |
| Kernels.NormalizedShape | src/WaveEdit.hpp:113-129 | for max - min >= 1e-6: every element lands in [new_min, new_max], the old minimum maps to new_min and the old maximum to new_max; otherwise every element becomes the memset fill of `empty` |
| Kernels.NormalizedUnit | src/WaveEdit.hpp:113-129 | with the arguments every call site passes (-1, 1, 0), the result lies in [-1, 1] and is all zeros for a flat input |
| Kernels.ScanRange | src/WaveEdit.hpp:114-119 | the scan loop returns the minimum and maximum of the data |
| Kernels.NormalizeArray | src/WaveEdit.hpp:113-129 | the array afterwards holds `Normalized` of its old contents |
| Kernels.CMulProperties | src/WaveEdit.hpp:140-143 | the complex product is commutative and multiplies squared norms |
| Kernels.Cmultf | src/WaveEdit.hpp:136-143 | writes exactly (ar*br - ai*bi, ar*bi + ai*br) into the two output slots and nothing else; inputs passed by value make aliasing harmless |
| PostProcess.NoEffects | src/wave.cpp:428 | every one of the 30 effect values is 0 |
| PostProcess.Wrapped | src/wave.cpp:146-148 | the `tmp[WAVE_LEN + 1]` copy equals the buffer, with element 0 repeated at the end |
| PostProcess.SoftClip | src/wave.cpp:54-58 | the soft clipper's output lies in [-2/3, 2/3] |
| PostProcess.SoftClipBounds | src/wave.cpp:55-58 | the same bound, for both branches of the clipper |
| PostProcess.GainStageBounded | src/wave.cpp:48-61 | for gain amount g in [0, 1], the gain stage keeps a signal in [-1, 1] inside it; at g = 1 any signal ends in [-1, 1] |
| PostProcess.DstPhase | src/wave.cpp:150-158 | the piecewise-rescaled phase lies in [0, 1) |
| PostProcess.CubeBounds | src/wave.cpp:160-161 | cubing keeps [-1, 1) inside [-1, 1) |
| PostProcess.FinalPhase | src/wave.cpp:160-163 | with CUBIC_DISTORTION in [0, 1], the final phase lies in [0, 1) |
| PostProcess.FinalPhaseBelowFour | src/wave.cpp:160-163 | for any CUBIC_DISTORTION in [-1/2, 4), unclamped as in the code, the final phase lies in [0, 1) |
| PostProcess.CubicCrossBounds | src/wave.cpp:160-163 | the cross-fade of a phase with its cubic reshaping, for weights in [-1/2, 4), lies in [0, 1) |
| PostProcess.DistortionReadsPastEndAtFour | src/wave.cpp:163-167 | with CUBIC_DISTORTION = 4 and no phase distortion, sample 64 has final phase 1 and reads `tmp[WAVE_LEN + 1]` |
| PostProcess.DistortedSampleReads | src/wave.cpp:165-167 | the read index lies in [0, WAVE_LEN), so `tmp[dst_idx + 1]` is in the WAVE_LEN + 1 buffer; the output lies between the two samples read |
| PostProcess.PhaseDistortionInRange | src/wave.cpp:144-169 | phase distortion keeps every sample inside any range [lo, hi] that holds the input |
| PostProcess.ChebyshevArgument | src/wave.cpp:204-207 | the argument passed to `asinf` lies in [-1, 1], and is the sample itself when the sample is in [-1, 1] |
| PostProcess.ReciprocalInUnit | src/wave.cpp:207 | 1/x lies in [-1, 1] when abs(x) > 1 |
| PostProcess.Frameskip | src/wave.cpp:213 | the hold frame length is positive |
| PostProcess.HoldIndex | src/wave.cpp:220-221 | the clamped hold index lies in [0, WAVE_LEN - 1], so `linterpf` stays inside the WAVE_LEN + 1 buffer |
| PostProcess.HoldReadInRange | src/wave.cpp:221 | a hold read of a signal in [lo, hi] lies in [lo, hi] |
| PostProcess.HoldStagesInRange | src/wave.cpp:211-239 | sample-and-hold and track-and-hold keep every sample in the input's range |
| PostProcess.Levels | src/wave.cpp:243 | for a quantization amount above 1e-3, levels = clamp(q)^-1.5 is at least 1 |
| PostProcess.QuantizedError | src/wave.cpp:245 | `roundf(x * levels) / levels` is within half a step of x, and so within 1/2 |
| PostProcess.QuantizedIdempotent | src/wave.cpp:245 | quantizing twice equals quantizing once |
| PostProcess.QuantizedGridPoint | src/wave.cpp:245 | a value already on the grid is unchanged |
| PostProcess.Slewed | src/wave.cpp:249-260 | the slew limiter keeps out[0], and every later step has magnitude at most slew |
| PostProcess.SlewedTransparent | src/wave.cpp:253-259 | a signal whose steps are already within the slew passes unchanged |
| PostProcess.BrickwallGain | src/wave.cpp:270 | the bin gain lies in [0, 1]; it is 0 at or above the low-pass cut and at or below the high-pass cut |
| PostProcess.BrickwallBands | src/wave.cpp:264-275 | the DC bin is untouched, no bin grows, and bins outside the pass band become 0 |
| PostProcess.BoostAtLeastOne | src/wave.cpp:299-322 | every boost factor is at least 1, and exactly 1 when no boost is positive |
| PostProcess.CycledRamp | src/wave.cpp:352-360 | cycling keeps sample WAVE_LEN/2 in place and lowers every neighbour difference by (end - s[0])/WAVE_LEN, where end = s[WAVE_LEN-1]*WAVE_LEN/(WAVE_LEN-1) |
| PostProcess.Clipped | src/wave.cpp:366-369 | the hard clip puts every sample in [-1, 1] and leaves samples already inside unchanged |
| PostProcess.PostOut | src/wave.cpp:366-373 | what `updatePost` stores in postSamples always lies in [-1, 1] |
| PostProcess.IdleStage | src/wave.cpp:49-364 | a stage whose gate is closed passes its input through |
| PostProcess.IdlePipeline | src/wave.cpp:48-364 | a run of closed stages passes its input through |
| PostProcess.PostOutBypass | src/wave.cpp:44-373 | with every effect 0 and cycle and normalize off, postSamples is the clamped samples |
| PostProcess.PostOutNormalizeOnly | src/wave.cpp:362-369 | with every effect 0 and only normalize on, postSamples is the normalized input, all zeros for a flat input |
| PostProcess.Store | src/wave.cpp:46 | the memcpy leaves exactly the source in the buffer |
| PostProcess.ApplyGain | src/wave.cpp:53-60 | the in-place gain loop leaves `GainStage` of the old buffer |
| PostProcess.ApplyPreGain | src/wave.cpp:48-61 | pre-gain in place, its gate included |
| PostProcess.ApplyPostGain | src/wave.cpp:337-350 | post-gain in place, its gate included |
| PostProcess.ApplyHarmonic | src/wave.cpp:63-142 | the harmonic block is applied exactly when one of its six amounts is positive |
| PostProcess.ApplyComb | src/wave.cpp:171-197 | the comb filter is applied exactly when COMB > 0 |
| PostProcess.ApplyDistortion | src/wave.cpp:144-169 | the phase and cubic distortion loop, reading the wrapped copy |
| PostProcess.ApplyChebyshev | src/wave.cpp:199-209 | the Chebyshev loop in place, its gate included |
| PostProcess.ApplySampleHold | src/wave.cpp:211-223 | the sample-and-hold loop in place, its gate included |
| PostProcess.ApplyTrackHold | src/wave.cpp:225-239 | the track-and-hold loop, which rewrites sample i only once i reaches its hold point, its gate included |
| PostProcess.ApplyQuantize | src/wave.cpp:241-247 | the quantization loop, applied only above 1e-3 |
| PostProcess.ApplySlew | src/wave.cpp:249-260 | the slew loop with its running `y` leaves `Slewed` of the old buffer |
| PostProcess.ApplyBrickwall | src/wave.cpp:262-275 | the brick-wall stage: FFT, per-bin gain, inverse FFT, with its gate |
| PostProcess.FilterBins | src/wave.cpp:269-273 | the bin loop scales each pair 2i, 2i+1 for 1 <= i < N/2 and leaves bin 0 alone |
| PostProcess.ApplyFeedback | src/wave.cpp:277-297 | the four feedback modulations run in order, with the source's gates, indices and clamped depths |
| PostProcess.FeedbackStages | src/wave.cpp:279-297 | pipeline stages 10 to 13 are the phase, frequency, ring and amplitude feedback in that order |
| PostProcess.BoostTable | src/wave.cpp:301-322 | the boost table holds the low/high increments and the mid factor for every bin |
| PostProcess.AddLowBoost | src/wave.cpp:306-308 | the low boost adds to bins below N/4 only |
| PostProcess.AddHighBoost | src/wave.cpp:310-312 | the high boost adds to bins from N/4 on only |
| PostProcess.ApplyMidBoost | src/wave.cpp:315-322 | the mid boost multiplies every bin by its factor |
| PostProcess.BoostBins | src/wave.cpp:328-331 | both components of every bin are scaled by the bin's boost |
| PostProcess.ApplyBoost | src/wave.cpp:299-335 | the boost stage in place, its gate included |
| PostProcess.ApplyCycle | src/wave.cpp:352-360 | the cycle loop in place when `cycle` is set |
| PostProcess.ApplyClip | src/wave.cpp:366-369 | the hard-clip loop leaves `Clipped` of the old buffer |
| PostProcess.RunPipeline | src/wave.cpp:44-373 | running the 18 stages in source order on a local copy of the samples yields `PostOut` |
| WaveModel.HarmonicsAreMagnitudes | src/wave.cpp:387-389 | each harmonic is non-negative, and its square is 4 times the bin's squared norm |
| WaveModel.ComputeHarmonics | src/wave.cpp:387-389 | the harmonics loop computes `HarmonicsOf` the spectrum |
| WaveModel.Posted | src/wave.cpp:44-381 | `updatePost` changes only the post fields; postSamples lies in [-1, 1] and postSpectrum is its FFT |
| WaveModel.CommittedConsistent | src/wave.cpp:383-391 | after `commitSamples`, the spectrum is the samples' FFT and the harmonics and post-harmonics are its magnitudes; samples, effects and flags are unchanged |
| WaveModel.CommittedZeroIsSilent | src/bank.cpp:8-11 | committing the zeroed wave keeps zero samples and yields zero postSamples |
| WaveModel.ClearedEffectsNormalizes | src/wave.cpp:427-432 | after `clearEffects`, postSamples is the normalized samples (normalize is set), all zeros for a flat wave |
| WaveModel.BakedState | src/wave.cpp:434-438 | `bakeEffects` moves postSamples into samples, clears the effects and cycle, sets normalize, and re-posts the normalized result |
| WaveModel.CommitBinMagnitude | src/wave.cpp:395-421 | a non-DC bin gets magnitude h/2; the DC imaginary part becomes 0; a bin of magnitude <= 1e-6 becomes (h/2, 0) at DC and (0, -h/2) elsewhere; any other non-DC bin keeps its direction when h >= 0 |
| WaveModel.CommittedSpectrumHarmonics | src/wave.cpp:393-423 | for every bin k >= 1 with h >= 0, the harmonic read back from the rescaled spectrum is exactly h |
| WaveModel.CommittedSpectrumAt | src/wave.cpp:395-421 | bin k of the rescaled spectrum is the per-bin rule applied to bin k of the old spectrum |
| WaveModel.CommitBinHypot | src/wave.cpp:396-408 | the rescaled non-DC bin has `hypot` exactly h/2 |
| WaveModel.RescaleSpectrum | src/wave.cpp:395-421 | the bin loop yields `CommittedSpectrum` |
| WaveModel.MorphedEffect | src/wave.cpp:447-448 | only `effects[effect]` changes; it becomes `from` at fade 0 and `to` at fade 1, and stays in [0, 1] for inputs in [0, 1] |
| WaveModel.MorphedAll | src/wave.cpp:453-455 | every effect is crossed; fade 0 gives `from`, fade 1 gives `to`, and agreeing slots keep their value |
| WaveModel.MorphKeepsDefined | src/wave.cpp:447-457 | morphing with fade in [0, 1] keeps CUBIC_DISTORTION in [0, 1], so `updatePost` stays in bounds |
| WaveModel.Wave.constructor | src/wave.cpp:40-42 | a new wave is the zero wave that `clear` leaves |
| WaveModel.Wave.Clear | src/wave.cpp:40-42 | `clear` leaves the zero wave |
| WaveModel.Wave.UpdatePost | src/wave.cpp:44-381 | the new state is `Posted` of the old one |
| WaveModel.Wave.CommitSamples | src/wave.cpp:383-391 | the new state is `Committed` of the old one |
| WaveModel.Wave.CommitHarmonics | src/wave.cpp:393-425 | the spectrum is rescaled by the per-bin rule, the samples re-synthesised, and the post fields recomputed |
| WaveModel.Wave.ClearEffects | src/wave.cpp:427-432 | the new state is `ClearedEffects` of the old one |
| WaveModel.Wave.BakeEffects | src/wave.cpp:434-438 | the new state is `Baked` of the old one |
| WaveModel.Wave.MorphEffect | src/wave.cpp:447-450 | only the one effect changes, then `updatePost` runs |
| WaveModel.Wave.MorphAllEffects | src/wave.cpp:452-457 | every effect is crossed, then `updatePost` runs |
| WaveModel.Wave.Copy | src/wave.cpp:646-648 | the wave becomes an exact copy of the source |
| WaveModel.Clipboard.constructor | src/wave.cpp:6-7 | the clipboard starts inactive, holding the zero wave |
| WaveModel.Clipboard.Copy | src/wave.cpp:635-638 | the clipboard holds a snapshot of the wave and becomes active |
| WaveModel.Clipboard.Paste | src/wave.cpp:640-644 | while inactive the wave is unchanged; when active the wave becomes the snapshot; the clipboard itself never changes |
| BaseWaveModel.ChooseShapes | src/basewave.cpp:93-100 | for a knob s in [0, 1], the first shape is floor(6s), the second is the next one modulo 7, and the blend is the fraction of 6s |
| BaseWaveModel.NextShape | src/basewave.cpp:97 | `fmod(k + 1, 7)` truncated is (k + 1) mod 7 |
| BaseWaveModel.LockedShapesAreUniform | src/basewave.cpp:110-123 | with equal lower and upper knobs, both halves of the phase read the lower knob's shape pair and blend |
| BaseWaveModel.LinearRamp | src/basewave.cpp:85-87 | the linear phasor i/N is strictly increasing within [0, 1) |
| BaseWaveModel.CornerOffset | src/basewave.cpp:191-202 | for angles up to 0.5, the corner point sits on the horizontal edge of the magnitude square, with x in [0, magnitude]; above 0.5 it sits on the vertical edge |
| BaseWaveModel.PathPoints | src/basewave.cpp:187-240 | the four path points run from (0,0) to (1,1); a zero bottom magnitude collapses the first interior point to (0,0), a zero top magnitude the second to (1,1); under the slider ranges every x lies in [0, 1] |
| BaseWaveModel.SegmentValueInterpolates | src/basewave.cpp:242-251 | the segment formula starts at y1, ends at y2 and stays between them |
| BaseWaveModel.SegmentWritesPastEnd | src/basewave.cpp:249-250 | a segment ending at x = 1 from an integral start stores to index WAVE_LEN, one past the end |
| BaseWaveModel.RasterSegment | src/basewave.cpp:249-251 | the segment loop with the past-the-end store left out yields `Rastered` |
| BaseWaveModel.BezierWeightsPositive | src/basewave.cpp:258-262 | for 0 <= u < 1 and weight >= 0, the Bernstein weights are non-negative and the first is positive |
| BaseWaveModel.BezierIndexInRange | src/basewave.cpp:259-266 | the raster index (int)(bx * N) stays in [0, N), because bx/bw is a weighted average with positive weight on x = 0 |
| BaseWaveModel.AverageBelowOne | src/basewave.cpp:260-264 | the weighted x sum stays below the weight sum |
| BaseWaveModel.Crossfaded | src/basewave.cpp:273-274 | ratio 0 keeps the line phasor; ratio 1 gives the Bezier raster |
| BaseWaveModel.DefaultPhasorIsIdentity | src/basewave.cpp:185-252 | with both magnitudes and the Bezier ratio at 0, as after `clear`, the phasor is the identity ramp i/N |
| BaseWaveModel.DefaultPhasorWritesPastEnd | src/basewave.cpp:207-250 | with both magnitudes at 0, as after `clear`, two segments of the code as written store to `phasor[WAVE_LEN]` |
| BaseWaveModel.SyncPhase | src/basewave.cpp:292-301 | for 0 < resonance <= 1, `sync_phase` stays in [0, 1) |
| BaseWaveModel.SyncIndex | src/basewave.cpp:295 | for 0 < resonance <= 1, the lookup index lies in [0, N) |
| BaseWaveModel.Envelope | src/basewave.cpp:341-345 | the envelope keeps samples from [-1, 1] inside [-1, 1] and leaves sample 0 unchanged |
| BaseWaveModel.SyncPhaseSmallStep | src/basewave.cpp:295-301 | whenever the step `1/WAVE_LEN * (1 + MAX_RESONANCE * resonance)` lies in [0, 1], `sync_phase` stays in [0, 1) at every iteration |
| BaseWaveModel.SyncPhaseLargeStepReadsPastEnd | src/basewave.cpp:295-301 | with resonance 127.75 the step is 2, and `sync_phase` is 1 at the second iteration, so the lookup index is WAVE_LEN |
| BaseWaveModel.SamplesGenerated | src/basewave.cpp:282-357 | `generateSamples` changes only `samples` and `harmonics` |
| BaseWaveModel.GeneratedSamplesNormalized | src/basewave.cpp:339-357 | the samples are the normalized raw shape, in [-1, 1], and the harmonics are non-negative; with resonance 0 the raw shape is read through the phasor itself |
| BaseWaveModel.BaseWave.constructor | src/basewave.cpp:62 | a new base wave is the zeroed struct |
| BaseWaveModel.BaseWave.Zero | src/basewave.cpp:62 | the memset leaves the zeroed struct |
| BaseWaveModel.BaseWave.GenerateShape | src/basewave.cpp:91-125 | the shape loop yields `Shaped` through the given phasor |
| BaseWaveModel.BaseWave.UpdateShape | src/basewave.cpp:84-89 | only `shape` changes, to the shapes read through the linear phasor |
| BaseWaveModel.BaseWave.UpdatePhasor | src/basewave.cpp:185-278 | the new state is `PhasorUpdated`: stored corner points and the traced phasor |
| BaseWaveModel.BaseWave.GenerateSamples | src/basewave.cpp:282-359 | the new state is `SamplesGenerated`, and every bank wave gets the samples and is committed |
| BaseWaveModel.BaseWave.UpdateSamples | src/basewave.cpp:362-367 | every bank wave gets the samples and is committed |
| BaseWaveModel.BaseWave.Clear | src/basewave.cpp:61-81 | the knobs are the cleared ones (pulse width 0.5, shapes locked, everything else 0), then updateShape, updatePhasor and generateSamples run, in that order |
| BaseWaveModel.BroadcastSamples | src/basewave.cpp:362-367 | the loop over the bank commits every wave with the given samples |
| BaseWaveModel.NormalizeBuffer | src/basewave.cpp:348 | the buffer is normalized to [-1, 1] with fill 0 |
| BaseWaveModel.SyncedLookup | src/basewave.cpp:291-303 | the sync loop reads the phasor at the synced index for every i |
| BaseWaveModel.ApplyEnvelope | src/basewave.cpp:341-345 | the envelope loop applies `Envelope` to every sample |
| BaseWaveModel.ControlPoints | src/basewave.cpp:187-240 | the control-point code stores the corner coordinates and builds `PathPoints` |
| BaseWaveModel.TracePhasor | src/basewave.cpp:242-276 | the segment loops and the optional Bezier cross-fade yield `Traced` |
| BaseWaveModel.BezierCurve | src/basewave.cpp:256-269 | the u loop rasters all N*16 curve points in order |
| BaseWaveModel.CrossfadeBuffers | src/basewave.cpp:273-274 | the cross-fade loop yields `Crossfaded` |
| RomFormat.RomGeometry | src/bank.cpp:136-141 | 16 records of 16 bytes cover one 256-sample wave |
| RomFormat.DigitValue | src/bank.cpp:149 | a hex digit parses to a value in [0, 16) |
| RomFormat.DigitRoundTrip | src/bank.cpp:138 | a digit written by `%X` parses back to its value |
| RomFormat.ParsePair | src/bank.cpp:184-186 | parsing two characters gives a byte |
| RomFormat.ParseHex2 | src/bank.cpp:142 | the two digits of a byte written with `%02X` parse back to the byte |
| RomFormat.HexBytesAt | src/bank.cpp:141-144 | characters 2l and 2l+1 of the record text are the digits of byte l |
| RomFormat.SampleByte | src/bank.cpp:142 | the stored sample is a byte |
| RomFormat.DecodeByteRange | src/bank.cpp:186 | every byte decodes into [-1, 1]; 0 decodes to -1 and 255 to 1 |
| RomFormat.SampleByteRoundTrip | src/bank.cpp:142 | for a sample in [-1, 1], the byte is trunc((x + 1) * 127.5); decoding it loses less than 2/255 and never rounds up |
| RomFormat.SampleIndex | src/bank.cpp:142 | byte k of record j holds sample 16j + k, which lies inside the wave |
| RomFormat.RecordAddress | src/bank.cpp:138 | the address (i*16 + j)*16 fits the four-digit field |
| RomFormat.DataBytes | src/bank.cpp:141-144 | a record carries 16 data bytes |
| RomFormat.RecordBytes | src/bank.cpp:137-144 | a record covers 20 checksummed bytes: count, address, type, data |
| RomFormat.RunningSum | src/bank.cpp:145-151 | the running checksum stays a byte |
| RomFormat.RunningSumIsSum | src/bank.cpp:145-151 | the running masked sum equals the byte sum mod 256 |
| RomFormat.ChecksumIsOnesComplement | src/bank.cpp:145-153 | the byte sum plus the checksum is 0xFF mod 256; the two's-complement checksum would make it 0; the code's checksum is the standard's minus one, mod 256 |
| RomFormat.HeaderText | src/bank.cpp:137-140 | the record text starts with "10", the four-digit address and "00" |
| RomFormat.RecordByteAt | src/bank.cpp:141-142 | data byte k of record j of wave i is the byte of sample 16j + k |
| RomFormat.HexPairAt | src/bank.cpp:184-186 | each byte pair of the text parses back to its byte |
| RomFormat.RecordLayout | src/bank.cpp:129-155 | a record line has 43 characters, starts with ':' and has type characters "00" at positions 7 and 8 |
| RomFormat.RecordDataAt | src/bank.cpp:181-186 | the loader's pair at 9 + 2k of a record line parses to the stored byte of sample 16j + k |
| RomFormat.BuildRecord | src/bank.cpp:137-155 | building the line with the running checksum yields `RecordLine` |
| RomFormat.RecordChecksum | src/bank.cpp:145-152 | the checksum loop over the byte pairs of the text computes `Checksum` |
| RomFormat.RomLines | src/bank.cpp:135-159 | the file has one line per record, 256 * 16 of them, plus the EOF line |
| RomFormat.EncodeRom | src/bank.cpp:135-159 | the nested record loops and the EOF line yield `RomLines` |
| RomFormat.EofIsSkipped | src/bank.cpp:181-182 | the EOF record ":00000001FF" is not taken as a data line |
| RomFormat.RecordSample | src/bank.cpp:184-186 | every loaded sample lies in [-1, 1] |
| RomFormat.ReadRecord | src/bank.cpp:180-189 | the getline loop skips non-data lines and loads the next data line into record j |
| RomFormat.ReadWave | src/bank.cpp:179-190 | the record loop loads wave i from the next 16 data lines, keeping old samples where the file runs out |
| RomFormat.RomDataLines | src/bank.cpp:155-182 | the loader accepts exactly the written records and skips the EOF line |
| RomFormat.RecordIsData | src/bank.cpp:155 | every written record is a data line |
| RomFormat.RomRoundTrip | src/bank.cpp:142-186 | loading a written ROM gives back every sample as its decoded byte, within 2/255 below the original |
| BankLayout.SwappedExchanges | src/bank.cpp:16-20 | `swap` exchanges exactly slots i and j and leaves every other slot unchanged |
| BankLayout.SwappedPermutes | src/bank.cpp:16-20 | `swap` preserves the multiset of waves |
| BankLayout.Roll | src/bank.cpp:25 | `rand() % j` picks a slot below j |
| BankLayout.Shuffled | src/bank.cpp:23-28 | `shuffle` preserves the multiset of waves for any random values |
| BankLayout.ShuffledWithConstantRoll | src/bank.cpp:24-27 | with every roll equal to a < 3, slot a ends up holding the last slot swapped in |
| BankLayout.ShuffleMovesLowSlots | src/bank.cpp:24-27 | with every roll equal to a < 3, slot a ends up holding the original slot 3, so slots 0-2 are not fixed |
| BankLayout.ChunkOfFlattened | src/bank.cpp:39-43 | chunk j of the flat buffer is wave j's buffer |
| BankLayout.FlatLayout | src/bank.cpp:41 | out[j*WAVE_LEN + k] is element k of buffer j |
| BankLayout.FlattenedChunks | src/bank.cpp:31-36 | cutting a flat buffer into chunks and flattening again gives back its prefix |
| BankModel.BroadcastRecommitted | src/bank.cpp:31-36 | storing samples and committing does not depend on an earlier commit, and keeps the effects |
| BankModel.Bank.constructor | src/bank.cpp:8 | a new bank holds zero waves and zeroed base waves |
| BankModel.Bank.Clear | src/bank.cpp:6-13 | every wave becomes the committed zero wave: zero samples, no effects, cycle and normalize off, zero postSamples; both base waves are zeroed |
| BankModel.Bank.Swap | src/bank.cpp:16-20 | the slots become `Swapped` of the old ones |
| BankModel.Bank.Shuffle | src/bank.cpp:23-28 | the descending swap loop yields `Shuffled` of the old slots, a permutation |
| BankModel.Bank.SetSamples | src/bank.cpp:31-36 | wave j gets `in[j*WAVE_LEN + k]` as sample k and is committed |
| BankModel.Bank.GetPostSamples | src/bank.cpp:39-43 | out is the post samples of every wave, flattened in order, and the bank is not modified |
| BankModel.Bank.DuplicateToAll | src/bank.cpp:46-52 | every slot becomes the original `waves[waveId]` |
| BankModel.Bank.SaveRom | src/bank.cpp:123-161 | the file written is `RomLines` of the wave samples; a failed open writes nothing |
| BankModel.Bank.LoadRom | src/bank.cpp:164-197 | a failed open changes nothing; otherwise the bank is cleared and each wave is loaded from the data lines and committed |
| BankModel.Bank.ReadWaves | src/bank.cpp:178-192 | the wave loop loads and commits every wave from the data lines in order |
| BankModel.PostSamplesRoundTrip | src/bank.cpp:39-43 | chunk j of `getPostSamples`' output is wave j's postSamples |
| OscillatorModel.Phase | src/oscillator.cpp:128 | the phase i/N lies in [0, 1) |
| OscillatorModel.PhaseIncreasing | src/oscillator.cpp:128 | the phase increases with i |
| OscillatorModel.SineWave | src/oscillator.cpp:72-84 | the loop writes `SineSamples` and leaves compensation alone |
| OscillatorModel.HalfSineWave | src/oscillator.cpp:88-120 | the loop writes `HalfSineSamples` and accumulates `HalfSineComps` |
| OscillatorModel.TriangleWave | src/oscillator.cpp:122-137 | the loop writes `TriangleSamples` and assigns `TriangleComps` |
| OscillatorModel.TriPulseWave | src/oscillator.cpp:139-165 | the loop writes `TriPulseSamples` and assigns `TriPulseComps` |
| OscillatorModel.SquareWave | src/oscillator.cpp:168-187 | the loop writes `SquareSamples` and accumulates `SquareComps` |
| OscillatorModel.RectangleWave | src/oscillator.cpp:189-230 | the loop writes `RectangleSamples` and accumulates `RectangleComps` |
| OscillatorModel.TrapezoidWave | src/oscillator.cpp:232-255 | the loop writes `TrapezoidSamples` and accumulates `TrapezoidComps` |
| OscillatorModel.GetWave | src/oscillator.cpp:42-69 | the selected generator runs, unknown shapes draw nothing, and the samples are then normalized while compensation is left as the generator left it |
| OscillatorModel.BlendInto | src/oscillator.cpp:15-16 | samples[i] = crossf(a[i] + ca[i], b[i] + cb[i], ratio) for every i |
| OscillatorModel.AddBlendInto | src/oscillator.cpp:35-36 | the blend is added to the existing samples |
| OscillatorModel.Clear | src/oscillator.cpp:28-31 | memset zeroes the buffer |
| OscillatorModel.ClearScratch | src/oscillator.cpp:28-31 | all four scratch buffers are zero |
| OscillatorModel.BlendPair | src/oscillator.cpp:23-26 | two `getWave` calls on zeroed scratch buffers, then the blend is stored or added |
| OscillatorModel.RenderCycle | src/oscillator.cpp:11-16 | fast path: the blend of two full-cycle renders |
| OscillatorModel.RenderHalves | src/oscillator.cpp:18-37 | the lower-only blend plus the upper-only blend, with the scratch buffers zeroed in between |
| OscillatorModel.Render | src/oscillator.cpp:5-39 | `render` yields `Rendered`: the fast path exactly when both shape pairs and ratios agree |
| OscillatorModel.RescalefMonotone | src/WaveEdit.hpp:61-63 | `rescalef` is monotone, increasing or decreasing with the sign of yMax - yMin |
| OscillatorModel.SquareLevels | src/oscillator.cpp:168-187 | square writes only -1 or 1 on drawn phases and keeps the rest; it is high after t1 = pw/2 in the lower half and before t2 = pw + (1 - pw)/2 in the upper half |
| OscillatorModel.SquareCycle | src/oscillator.cpp:170-184 | for pw in [0, 1], the full square is high exactly on [t1, t2) |
| OscillatorModel.RectangleLevels | src/oscillator.cpp:189-230 | rectangle writes only -1, 0 or 1 on drawn phases and keeps the rest |
| OscillatorModel.TriangleBounds | src/oscillator.cpp:132-135 | for 0 < pw < 1, triangle samples lie in [-1, 1]; undrawn samples are kept |
| OscillatorModel.TriangleRisesFalls | src/oscillator.cpp:132-135 | triangle strictly rises before pw and strictly falls after |
| OscillatorModel.TriPulseBounds | src/oscillator.cpp:150-163 | for 0 < pw < 1, tri-pulse samples lie in [-1, 1]; undrawn samples are kept |
| OscillatorModel.TriPulseRisesFalls | src/oscillator.cpp:150-163 | tri-pulse never falls before pw and never rises after |
| OscillatorModel.TrapezoidClamped | src/oscillator.cpp:244-252 | trapezoid samples are clamped to [-1, 1]; undrawn samples are kept |
| OscillatorModel.GeneratedKeepsUndrawn | src/oscillator.cpp:42-67 | no generator writes a sample of a half whose flag is off, and an unknown shape writes nothing |
| OscillatorModel.CompensationAccumulates | src/oscillator.cpp:176-253 | for the accumulating shapes, compensation is unchanged when both flags are off |
| OscillatorModel.CompensationAssigned | src/oscillator.cpp:130-148 | triangle and tri-pulse assign compensation whatever it held before; triangle's does not depend on the flags at all |
| OscillatorModel.GetWaveUnit | src/oscillator.cpp:68 | after `getWave`, samples lie in [-1, 1], and all zeros if the raw wave was flat |
| OscillatorModel.RenderedRatioEnds | src/oscillator.cpp:11-16 | on the fast path, ratio 0 gives shape a's samples plus compensation, ratio 1 shape b's |
| OscillatorModel.ShapeBlendSelf | src/oscillator.cpp:15-16 | blending a shape with itself gives its samples plus compensation, whatever the ratio |

## Findings

| source | as written | input that shows it | evidently intended | confidence | as-written member | corrected member |
|---|---|---|---|---|---|---|
| src/basewave.cpp:249-250 | `for (x = x1*N; x <= x2*N; x += 1) phasor[(int) x] = ...`: the bound `<=` lets the last step store to `phasor[WAVE_LEN]` whenever a segment ends at x2 = 1 from an integral x1*N | the default knobs after `clear` (both magnitudes 0): the segments (0,0)-(1,1) and (1,1)-(1,1) both store to index 256 of a 256-element array | store only indices below WAVE_LEN; the phasor is then the identity ramp i/N for the default knobs | not executed | BaseWaveModel.DefaultPhasorWritesPastEnd | BaseWaveModel.DefaultPhasorIsIdentity |

`BaseWaveModel.SegmentWritesPastEnd` is the general form of the as-written
lemma. `BaseWaveModel.RasterSegment` and `Rastered` are the corrected
segment store that the rest of the model uses.

## Left out

- FFT and library mathematics are uninterpreted `Lib` functions.
  - This covers `RFFT`/`IRFFT`, `sinf`/`cosf`/`asinf`, `powf`, `hypotf`, and the float that `memset` makes from a non-zero byte.
  - Only the facts in `Lib.Valid()` are assumed of them.
  - `resample`, `cyclicOversample` and `cyclicUndersample` are not used by the modelled code.
- The harmonic shift/stretch/asymmetry/balance/fold block, the comb filter and the four modulation kernels of `updatePost` are opaque `Lib` transforms. Their gates, arguments and order are exact.
  - The phase and frequency modulation kernels can read `tmp[4N+1]`, past the end (src/wave.cpp:574-575, 600-601). This is not modelled, because those kernels are opaque.
- Floating-point behaviour is not modelled: single-precision rounding, NaN and infinity. The `-INFINITY`/`INFINITY` seeds of the min/max scan become the first element, which gives equal results on non-empty buffers.
- The race with the audio thread at src/wave.cpp:371-373 is not modelled; concurrency is out of scope.
- I/O is left out:
  - `saveWAV`/`loadWAV`, `Bank::save`/`load`, `saveWaves` and the Blofeld format;
  - the fopen/fprintf/getline parts of `saveROM`/`loadROM`.
  - The file is a sequence of lines. A failed open is `None` for `LoadRom`; `SaveRom` returns the lines it would print.
- `RomFormat.ParsePair`: models `strtol` on exactly the two characters given.
  - The code passes an unterminated `char byte[2]`, so the real call may read further.
  - Leading whitespace, signs and a "0x" prefix (which `strtol` would accept) are not modelled.
  - A character past the end of a short line reads as the terminator.
- `RomFormat.SampleByte`: the `(uint8_t)` cast of an out-of-range float is undefined in C; the model reduces modulo 256. For samples in [-1, 1], every cast is in range (`SampleByteRoundTrip`).
- `randomizeEffects` (src/wave.cpp:440-445) is left out because it is purely random. For `shuffle`, the values of `rand()` are the `rolls` input, so any sequence stands for one nondeterministic run.
- The effect name table (src/wave.cpp:10-37) is UI labelling only and is left out.
- `BaseWave::getShape` (src/basewave.cpp:128-141) keeps its arithmetic, but the oscillator it calls (`setSampleRate`, `setPulseWidth`, `setWaveform`, `sync`, `getAndInc`) is the uninterpreted `Lib.oscillatorSample`. The value of the `Oscillator::SINE` enumerator, which `clear` stores in both shape knobs (src/basewave.cpp:63-64), belongs to that unseen enum; the model takes it as 0, the value of `SINE` in `WaveShapeID` (src/WaveEdit.hpp:268), so `clear` leaves both shape knobs at 0.
- The sine and half-sine generators call `sin` through `Lib`, so no bounds are proved about their samples.
- `BaseWave::commitSamples`, `commitShape` and `commitPhasor` (src/basewave.cpp:369-381) only call `generateSamples` and are not modelled separately.
- The global `currentBank` that `BaseWave::updateSamples` writes is passed in as the array of bank waves.
- Wave, bank and base-wave buffers are held as values (`seq`). C struct copies and `memcpy` are value copies too, so no aliasing between buffers arises.
- `OscillatorModel.TriangleWave`, `OscillatorModel.TriPulseWave` and `OscillatorModel.TrapezoidWave` require 0 < pulse_width < 1, where the code divides by `pulse_width` or `1 - pulse_width`. `SquareWave`, `RectangleWave` and `HalfSineWave` require only that their wrapped residual arguments be defined.
- `PostProcess.ApplyDistortion`, and through it `updatePost`, requires `PostDefined(effects)`: CUBIC_DISTORTION in [0, 1] whenever the distortion stage's gate is open. This is the range the effect sliders, `morphEffect` and `clearEffects` keep; the code does not clamp it. The reads stay in bounds on the wider range [-1/2, 4) (`PostProcess.FinalPhaseBelowFour`) and go one past the end at 4 (`PostProcess.DistortionReadsPastEndAtFour`). The pipeline itself is modelled on [0, 1] only.
- `BaseWaveModel.SamplesGenerated` and `BaseWaveModel.BaseWave.GenerateSamples` require resonance <= 1, the resonance slider's range. The wrap of `sync_phase` stays correct for any step (1 + 4 resonance) / 256 of at most 1, that is resonance <= 63.75 (`BaseWaveModel.SyncPhaseSmallStep`). It fails only beyond that: with resonance 127.75 the step is 2, and the second lookup reads `phasor[WAVE_LEN]`, past the end (`BaseWaveModel.SyncPhaseLargeStepReadsPastEnd`). The model does not cover resonances between 1 and 63.75.
- `Kernels.FmodBounds`: stated only for a non-negative dividend, the only case where the modelled call sites rely on it.
- Float loop counters are modelled in exact real arithmetic.
  - `sync_phase` in `generateSamples` (src/basewave.cpp:299) advances by `1.0/WAVE_LEN*(1 + MAX_RESONANCE*resonance)`. For a general resonance that step is not a power of two, so the float sum rounds at every step; `BaseWaveModel.SyncPhase` does not capture this rounding.
  - The segment counter `x` (src/basewave.cpp:249) starts at `x1*WAVE_LEN`, which is usually not a whole number since x1 comes from sin and cos. Its float `x += 1` then loses low bits as x grows, so the stored indices and the number of steps can differ from the exact ones; `BaseWaveModel.SegmentCount` and `Rastered` do not capture this.
  - Only the Bezier counter `u` (src/basewave.cpp:259) is exact as a float: it is k * 2^-12 with k < 4096.
- `powf` with integer exponents 2 and 3 in the Bezier weights is modelled as exact multiplication.
