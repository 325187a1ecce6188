/**
 * The index arithmetic of src/bank.cpp, apart from the waves themselves: the
 * slot swaps of `shuffle` and the flat layout of `setSamples` and
 * `getPostSamples`.
 */
module BankLayout {
  import opened Kernels

  // ---------------------------------------------------------------------
  // Slot permutations

  /** The slots after `swap(i, j)`. */
  function Swapped<T>(s: seq<T>, i: int, j: int): (r: seq<T>)
    requires 0 <= i < |s| && 0 <= j < |s|
    ensures |r| == |s|
  {
    s[i := s[j]][j := s[i]]
  }

  /** A swap exchanges slots i and j and leaves every other slot alone. */
  lemma SwappedExchanges<T>(s: seq<T>, i: int, j: int)
    requires 0 <= i < |s| && 0 <= j < |s|
    ensures Swapped(s, i, j)[i] == s[j] && Swapped(s, i, j)[j] == s[i]
    ensures forall k :: 0 <= k < |s| && k != i && k != j ==> Swapped(s, i, j)[k] == s[k]
  {
  }

  /** Swapping two slots keeps the multiset of waves. */
  lemma SwappedPermutes<T>(s: seq<T>, i: int, j: int)
    requires 0 <= i < |s| && 0 <= j < |s|
    ensures multiset(Swapped(s, i, j)) == multiset(s)
  {
    var t := s[i := s[j]];
    assert multiset(t) == multiset(s) - multiset{s[i]} + multiset{s[j]};
    assert multiset(t[j := s[i]]) == multiset(t) - multiset{t[j]} + multiset{s[i]};
  }

  /** The slot `rand() % j` that shuffle swaps with slot j, for the value r that rand() returned. */
  function Roll(r: nat, j: nat): (i: nat)
    requires 0 < j
    ensures i < j
  {
    r % j
  }

  /**
   * The slots after the first n steps of shuffle: step m swaps slot
   * j = BANK_LEN - 1 - m with slot rolls[m] % j, where rolls[m] is the value
   * rand() returned.
   */
  function Shuffled<T>(s: seq<T>, rolls: seq<nat>, n: nat): (r: seq<T>)
    requires |s| == BANK_LEN && n <= BANK_LEN - 3 && n <= |rolls|
    ensures |r| == BANK_LEN
    ensures multiset(r) == multiset(s)
  {
    if n == 0 then s
    else
      var j := BANK_LEN - n;
      var prev := Shuffled(s, rolls, n - 1);
      SwappedPermutes(prev, Roll(rolls[n - 1], j), j);
      Swapped(prev, Roll(rolls[n - 1], j), j)
  }

  /**
   * When rand() keeps returning a < 3, every step swaps slot a with the top
   * slot, so after n steps slot a holds the wave of slot BANK_LEN - n and the
   * slots below BANK_LEN - n other than a are untouched.
   */
  lemma {:induction false} ShuffledWithConstantRoll<T>(s: seq<T>, rolls: seq<nat>, a: nat, n: nat)
    requires |s| == BANK_LEN && |rolls| == BANK_LEN - 3 && a < 3 && 1 <= n <= BANK_LEN - 3
    requires forall m :: 0 <= m < |rolls| ==> rolls[m] == a
    ensures Shuffled(s, rolls, n)[a] == s[BANK_LEN - n]
    ensures forall k :: 0 <= k < BANK_LEN - n && k != a ==> Shuffled(s, rolls, n)[k] == s[k]
  {
    var prev := Shuffled(s, rolls, n - 1);
    if n > 1 {
      ShuffledWithConstantRoll(s, rolls, a, n - 1);
    } else {
      assert prev == s;
    }
    ShuffledConstantStep(s, rolls, a, n);
    SwapWithTop(s, prev, a, BANK_LEN - n);
  }

  /**
   * Swapping slot a with slot j of a bank whose slots up to j other than a
   * are still the original ones brings the original wave of slot j to a.
   */
  lemma SwapWithTop<T>(s: seq<T>, prev: seq<T>, a: nat, j: nat)
    requires |s| == |prev| && a < 3 <= j < |s|
    requires forall k :: 0 <= k <= j && k != a ==> prev[k] == s[k]
    ensures Swapped(prev, a, j)[a] == s[j]
    ensures forall k :: 0 <= k < j && k != a ==> Swapped(prev, a, j)[k] == s[k]
  {
    SwappedExchanges(prev, a, j);
  }

  /** Step n of shuffle with rand() returning a < 3 swaps slot a with slot BANK_LEN - n. */
  lemma ShuffledConstantStep<T>(s: seq<T>, rolls: seq<nat>, a: nat, n: nat)
    requires |s| == BANK_LEN && |rolls| == BANK_LEN - 3 && a < 3 && 1 <= n <= BANK_LEN - 3
    requires forall m :: 0 <= m < |rolls| ==> rolls[m] == a
    ensures Shuffled(s, rolls, n) == Swapped(Shuffled(s, rolls, n - 1), a, BANK_LEN - n)
  {
    EuclideanUnique(a, BANK_LEN - n, 0, a);
    assert Roll(rolls[n - 1], BANK_LEN - n) == a;
  }

  /** Slots 0, 1 and 2 are not protected: shuffle can move the wave of slot 3 into any of them. */
  lemma ShuffleMovesLowSlots<T>(s: seq<T>, rolls: seq<nat>, a: nat)
    requires |s| == BANK_LEN && |rolls| == BANK_LEN - 3 && a < 3
    requires forall m :: 0 <= m < |rolls| ==> rolls[m] == a
    ensures Shuffled(s, rolls, BANK_LEN - 3)[a] == s[3]
  {
    ShuffledWithConstantRoll(s, rolls, a, BANK_LEN - 3);
  }

  // ---------------------------------------------------------------------
  // The flat sample layout of setSamples and getPostSamples

  /** Wave j's part `in[j * WAVE_LEN .. (j + 1) * WAVE_LEN]` of a flat buffer. */
  function Chunk(flat: seq<real>, j: int): Buffer
    requires 0 <= j && (j + 1) * WAVE_LEN <= |flat|
  {
    flat[j * WAVE_LEN..(j + 1) * WAVE_LEN]
  }

  /** Buffers laid end to end. */
  function Flattened(bufs: seq<Buffer>): (flat: seq<real>)
    ensures |flat| == |bufs| * WAVE_LEN
  {
    if |bufs| == 0 then [] else Flattened(bufs[..|bufs| - 1]) + bufs[|bufs| - 1]
  }

  /** Chunk j of buffers laid end to end is buffer j. */
  lemma {:induction false} ChunkOfFlattened(bufs: seq<Buffer>, j: int)
    requires 0 <= j < |bufs|
    ensures Chunk(Flattened(bufs), j) == bufs[j]
  {
    var n := |bufs| - 1;
    var pre := bufs[..n];
    var f := Flattened(bufs);
    assert f == Flattened(pre) + bufs[n];
    if j < n {
      ChunkOfFlattened(pre, j);
      assert f[..n * WAVE_LEN] == Flattened(pre);
      assert Chunk(f, j) == Chunk(Flattened(pre), j);
    } else {
      assert f[n * WAVE_LEN..] == bufs[n];
    }
  }

  /** Sample k of wave j sits at `j * WAVE_LEN + k` of the flat buffer. */
  lemma FlatLayout(bufs: seq<Buffer>, j: int, k: int)
    requires 0 <= j < |bufs| && 0 <= k < WAVE_LEN
    ensures Flattened(bufs)[j * WAVE_LEN + k] == bufs[j][k]
  {
    ChunkOfFlattened(bufs, j);
    assert Chunk(Flattened(bufs), j)[k] == Flattened(bufs)[j * WAVE_LEN + k];
  }

  /** The chunks of a flat buffer of n waves. */
  function Chunks(flat: seq<real>, n: nat): (bufs: seq<Buffer>)
    requires n * WAVE_LEN <= |flat|
    ensures |bufs| == n
  {
    seq(n, j requires 0 <= j < n => Chunk(flat, j))
  }

  /** Laying the chunks of a flat buffer end to end gives it back. */
  lemma {:induction false} FlattenedChunks(flat: seq<real>, n: nat)
    requires n * WAVE_LEN <= |flat|
    ensures Flattened(Chunks(flat, n)) == flat[..n * WAVE_LEN]
  {
    if n > 0 {
      var c := Chunks(flat, n);
      assert c[..n - 1] == Chunks(flat, n - 1);
      FlattenedChunks(flat, n - 1);
      assert flat[..n * WAVE_LEN] == flat[..(n - 1) * WAVE_LEN] + Chunk(flat, n - 1);
    }
  }

}

/**
 * The Bank struct of src/bank.cpp: BANK_LEN waves stored by value, plus the
 * carrier and modulator BaseWaves. Its operations clear, swap and shuffle
 * slots, copy samples in and out through one flat buffer, duplicate a wave to
 * every slot, and save and load the PHMK2 ROM format of RomFormat.
 *
 * The waves are an array of WaveState values, as the C array of Wave structs
 * is: assigning a slot copies the whole wave.
 */
module BankModel {
  import opened Kernels
  import opened PostProcess
  import opened WaveModel
  import opened BaseWaveModel
  import opened RomFormat
  import opened BankLayout

  function SamplesOf(ws: seq<WaveState>): (r: seq<Buffer>)
    ensures |r| == |ws|
  {
    seq(|ws|, j requires 0 <= j < |ws| => ws[j].samples)
  }

  function PostSamplesOf(ws: seq<WaveState>): (r: seq<Buffer>)
    ensures |r| == |ws|
  {
    seq(|ws|, j requires 0 <= j < |ws| => ws[j].postSamples)
  }

  /**
   * Storing new samples into a committed wave and committing again is the same
   * as storing them into the wave before its first commit: commitSamples
   * depends only on the samples, the effects and the two flags.
   */
  lemma BroadcastRecommitted(lib: Lib, w: WaveState, s: Buffer)
    requires lib.Valid() && PostDefined(w.effects)
    ensures PostDefined(Committed(lib, w).effects)
    ensures Broadcast(lib, Committed(lib, w), s) == Broadcast(lib, w, s)
    ensures Broadcast(lib, w, s).effects == w.effects
  {
    CommittedConsistent(lib, w);
    var a, b := Committed(lib, w).(samples := s), w.(samples := s);
    var ra, rb := Committed(lib, a), Committed(lib, b);
    assert ra.spectrum == rb.spectrum && ra.harmonics == rb.harmonics;
    assert ra.postSamples == rb.postSamples && ra.postSpectrum == rb.postSpectrum && ra.postHarmonics == rb.postHarmonics;
  }

  // ---------------------------------------------------------------------
  // The Bank struct

  class Bank {
    const waves: array<WaveState>
    const carrier: BaseWave
    const modulator: BaseWave

    /** BANK_LEN slots, two distinct BaseWaves, and every wave's effects acceptable to updatePost. */
    ghost predicate Valid()
      reads waves
    {
      waves.Length == BANK_LEN && carrier != modulator && WavesReady(waves)
    }

    /** A zero-initialised bank, as the global `currentBank` starts. */
    constructor()
      ensures Valid() && fresh(waves) && fresh(carrier) && fresh(modulator)
      ensures forall i :: 0 <= i < BANK_LEN ==> waves[i] == ZeroState()
      ensures carrier.State() == ZeroBaseState() && modulator.State() == ZeroBaseState()
    {
      waves := new WaveState[BANK_LEN](_ => ZeroState());
      carrier := new BaseWave();
      modulator := new BaseWave();
    }

    /**
     * `clear`: the memset of the whole bank, then commitSamples on every wave.
     * Every wave then has zero samples, effects and flags, and zero post samples.
     */
    method Clear(lib: Lib)
      requires lib.Valid() && Valid()
      modifies waves, carrier, modulator
      ensures Valid()
      ensures forall i :: 0 <= i < BANK_LEN ==> waves[i] == Committed(lib, ZeroState())
      ensures var z := Committed(lib, ZeroState());
              z.samples == Zeros() && z.effects == NoEffects() && !z.cycle && !z.normalize && z.postSamples == Zeros()
      ensures carrier.State() == ZeroBaseState() && modulator.State() == ZeroBaseState()
    {
      ZeroSlots();
      carrier.Zero();
      modulator.Zero();
      CommitZeroSlots(lib);
      CommittedZeroIsSilent(lib);
      CommittedConsistent(lib, ZeroState());
    }

    /** The memset of the waves. */
    method ZeroSlots()
      requires Valid()
      modifies waves
      ensures Valid()
      ensures forall i :: 0 <= i < BANK_LEN ==> waves[i] == ZeroState()
    {
      for i := 0 to BANK_LEN
        invariant forall k :: 0 <= k < i ==> waves[k] == ZeroState()
        invariant forall k :: i <= k < BANK_LEN ==> waves[k] == old(waves[k])
      {
        waves[i] := ZeroState();
      }
    }

    /** The commitSamples loop of `clear`, on zeroed waves. */
    method CommitZeroSlots(lib: Lib)
      requires lib.Valid() && Valid()
      requires forall i :: 0 <= i < BANK_LEN ==> waves[i] == ZeroState()
      modifies waves
      ensures Valid()
      ensures forall i :: 0 <= i < BANK_LEN ==> waves[i] == Committed(lib, ZeroState())
    {
      CommittedZeroIsSilent(lib);
      CommittedConsistent(lib, ZeroState());
      ghost var z := Committed(lib, ZeroState());
      for i := 0 to BANK_LEN
        invariant Valid()
        invariant forall k :: 0 <= k < i ==> waves[k] == z
        invariant forall k :: i <= k < BANK_LEN ==> waves[k] == ZeroState()
      {
        CommitSlot(lib, i);
      }
    }

    /** commitSamples on wave i. */
    method CommitSlot(lib: Lib, i: int)
      requires lib.Valid() && Valid() && 0 <= i < BANK_LEN
      modifies waves
      ensures Valid()
      ensures waves[..] == old(waves[..])[i := Committed(lib, old(waves[i]))]
    {
      CommittedConsistent(lib, waves[i]);
      waves[i] := Committed(lib, waves[i]);
    }

    /** `swap(i, j)` through a temporary wave. */
    method Swap(i: int, j: int)
      requires Valid() && 0 <= i < BANK_LEN && 0 <= j < BANK_LEN
      modifies waves
      ensures Valid()
      ensures waves[..] == Swapped(old(waves[..]), i, j)
    {
      var tmp := waves[i];
      waves[i] := waves[j];
      waves[j] := tmp;
    }

    /**
     * `shuffle`: for j from BANK_LEN - 1 down to 3, swap slot j with slot
     * rand() % j; the values rand() returns are `rolls`, one per step.
     */
    method Shuffle(rolls: seq<nat>)
      requires Valid() && |rolls| == BANK_LEN - 3
      modifies waves
      ensures Valid()
      ensures waves[..] == Shuffled(old(waves[..]), rolls, BANK_LEN - 3)
      ensures multiset(waves[..]) == multiset(old(waves[..]))
    {
      ghost var w0 := waves[..];
      var j := BANK_LEN - 1;
      while j >= 3
        invariant 2 <= j <= BANK_LEN - 1
        invariant Valid()
        invariant waves[..] == Shuffled(w0, rolls, BANK_LEN - 1 - j)
      {
        var i := Roll(rolls[BANK_LEN - 1 - j], j);
        Swap(i, j);
        j := j - 1;
      }
      assert j == 2;
    }

    /** `setSamples(in)`: wave j takes `in[j * WAVE_LEN ..]` and is committed. */
    method SetSamples(lib: Lib, input: seq<real>)
      requires lib.Valid() && Valid() && |input| == BANK_LEN * WAVE_LEN
      modifies waves
      ensures Valid()
      ensures forall j :: 0 <= j < BANK_LEN ==> waves[j] == Broadcast(lib, old(waves[j]), Chunk(input, j))
    {
      for j := 0 to BANK_LEN
        invariant forall k :: 0 <= k < j ==> waves[k] == Broadcast(lib, old(waves[k]), Chunk(input, k))
        invariant forall k :: j <= k < BANK_LEN ==> waves[k] == old(waves[k])
      {
        StoreSlot(lib, j, Chunk(input, j));
      }
    }

    /** Copying `s` into the samples of wave j, then its commitSamples. */
    method StoreSlot(lib: Lib, j: int, s: Buffer)
      requires lib.Valid() && Valid() && 0 <= j < BANK_LEN
      modifies waves
      ensures Valid()
      ensures waves[..] == old(waves[..])[j := Broadcast(lib, old(waves[j]), s)]
    {
      CommittedConsistent(lib, waves[j].(samples := s));
      waves[j] := Broadcast(lib, waves[j], s);
    }

    /** `getPostSamples(out)`: the post samples of every wave, wave after wave. */
    method GetPostSamples() returns (out: seq<real>)
      requires Valid()
      ensures out == Flattened(PostSamplesOf(waves[..]))
    {
      out := [];
      for j := 0 to BANK_LEN
        invariant out == Flattened(PostSamplesOf(waves[..j]))
      {
        assert PostSamplesOf(waves[..j + 1])[..j] == PostSamplesOf(waves[..j]);
        out := out + waves[j].postSamples;
      }
      assert waves[..BANK_LEN] == waves[..];
    }

    /** `duplicateToAll(waveId)`: every other slot becomes a copy of slot waveId. */
    method DuplicateToAll(waveId: int)
      requires Valid() && 0 <= waveId < BANK_LEN
      modifies waves
      ensures Valid()
      ensures forall j :: 0 <= j < BANK_LEN ==> waves[j] == old(waves[waveId])
    {
      for j := 0 to BANK_LEN
        invariant waves[waveId] == old(waves[waveId])
        invariant forall k :: 0 <= k < j ==> waves[k] == old(waves[waveId])
        invariant forall k :: j <= k < BANK_LEN ==> waves[k] == old(waves[k])
      {
        if j != waveId {
          waves[j] := waves[waveId];
        }
      }
    }

    /** The lines `saveROM` writes. */
    method SaveRom() returns (file: seq<string>)
      requires Valid()
      ensures file == RomLines(SamplesOf(waves[..]))
    {
      file := EncodeRom(SamplesOf(waves[..]));
    }

    /**
     * `loadROM`: with no file nothing changes; otherwise the bank is cleared,
     * the samples of every wave are read from the data lines, and each wave is
     * committed.
     */
    method LoadRom(lib: Lib, file: Option<seq<string>>)
      requires lib.Valid() && Valid()
      modifies waves, carrier, modulator
      ensures Valid()
      ensures file.None? ==> waves[..] == old(waves[..]) && carrier.State() == old(carrier.State()) &&
                             modulator.State() == old(modulator.State())
      ensures file.Some? ==> forall i :: 0 <= i < BANK_LEN ==>
        waves[i] == Broadcast(lib, ZeroState(), LoadedWave(file.value, i, Zeros()))
      ensures file.Some? ==> carrier.State() == ZeroBaseState() && modulator.State() == ZeroBaseState()
    {
      if file.None? {
        return;
      }
      Clear(lib);
      ReadWaves(lib, file.value);
    }

    /** The reading loop of `loadROM`, on a cleared bank. */
    method ReadWaves(lib: Lib, lines: seq<string>)
      requires lib.Valid() && Valid()
      requires forall i :: 0 <= i < BANK_LEN ==> waves[i] == Committed(lib, ZeroState())
      modifies waves
      ensures Valid()
      ensures forall i :: 0 <= i < BANK_LEN ==> waves[i] == Broadcast(lib, ZeroState(), LoadedWave(lines, i, Zeros()))
    {
      CommittedZeroIsSilent(lib);
      ghost var z := Committed(lib, ZeroState());
      var pos := 0;
      assert lines[..0] == [];
      for i := 0 to BANK_LEN
        invariant Valid() && Consumed(lines, pos, i * RECORDS_PER_WAVE)
        invariant forall w :: 0 <= w < i ==> waves[w] == Broadcast(lib, ZeroState(), LoadedWave(lines, w, Zeros()))
        invariant forall w :: i <= w < BANK_LEN ==> waves[w] == z
      {
        var s;
        s, pos := ReadWave(lines, pos, i, waves[i].samples);
        BroadcastRecommitted(lib, ZeroState(), s);
        StoreSlot(lib, i, s);
      }
    }
  }

  /** Reading back the post samples with getPostSamples and storing them with setSamples gives each wave its own post samples. */
  lemma PostSamplesRoundTrip(ws: seq<WaveState>, j: int)
    requires |ws| == BANK_LEN && 0 <= j < BANK_LEN
    ensures Chunk(Flattened(PostSamplesOf(ws)), j) == ws[j].postSamples
  {
    ChunkOfFlattened(PostSamplesOf(ws), j);
  }
}
