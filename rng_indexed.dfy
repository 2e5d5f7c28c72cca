/**
 * The index-based random sources of `src/rng/pseudo.rs` and
 * `src/rng/sobol.rs`. Both keep the last step they drew for in a
 * `StepCache`; the declaration of `StepCache` (in the `rng` module root) is
 * not part of this model and is rebuilt from its uses.
 *
 * The generators are abstract: the ChaCha stream is a function from position
 * to value, the Sobol sequence a sequence of points. A Sobol point is kept
 * as the 64-bit patterns of its `f64` coordinates, which is what the
 * scrambler works on; the pattern of `0.0` is all zeros.
 */
module IndexedRng {
  import opened Wrappers
  import opened Arith

  /** `StepCache`: the step a batch was drawn for and the batch itself. */
  datatype StepCache<V> = StepCache(timeIdx: Option<nat>, scenarioIdx: nat, values: seq<V>)

  /** The `n` values of a stream from position `start` on. */
  function Window(stream: nat -> real, start: nat, n: nat): (w: seq<real>)
    ensures |w| == n
    ensures forall i :: 0 <= i < n ==> w[i] == stream(start + i)
  {
    seq(n, i requires 0 <= i => stream(start + i))
  }

  /** The cache test of the pseudo source: both the scenario and the time match. */
  predicate IsStepCached(lastStep: Option<StepCache<real>>, timeIdx: nat, scenarioIdx: nat) {
    lastStep.Some? && lastStep.value.scenarioIdx == scenarioIdx && lastStep.value.timeIdx == Some(timeIdx)
  }

  class PseudoRng {
    var lastStep: Option<StepCache<real>>
    const numIncrements: nat
    /** The values of `rng.random::<f64>()`, by position in the stream. */
    const stream: nat -> real
    /** How many values the generator has handed out. */
    var drawn: nat

    /** A cached batch has one value per increment. */
    ghost predicate Valid()
      reads this
    {
      lastStep.Some? ==> |lastStep.value.values| == numIncrements
    }

    /** `PseudoRng::new`: no cached step. */
    constructor (numIncrements: nat, stream: nat -> real)
      ensures this.numIncrements == numIncrements && this.stream == stream
      ensures lastStep == None && drawn == 0 && Valid()
    {
      this.numIncrements := numIncrements;
      this.stream := stream;
      lastStep := None;
      drawn := 0;
    }

    /** `refresh_cache`: the next `num_increments` values, tagged with the step. */
    method RefreshCache(timeIdx: nat, scenarioIdx: nat)
      modifies this
      ensures drawn == old(drawn) + numIncrements
      ensures lastStep == Some(StepCache(Some(timeIdx), scenarioIdx, Window(stream, old(drawn), numIncrements)))
      ensures Valid()
    {
      var values: seq<real> := [];
      for i := 0 to numIncrements
        invariant drawn == old(drawn) + i
        invariant values == Window(stream, old(drawn), i)
      {
        values := values + [stream(drawn)];
        drawn := drawn + 1;
      }
      lastStep := Some(StepCache(Some(timeIdx), scenarioIdx, values));
    }

    /**
     * `sample`: the batch is redrawn unless the cached step is this one; the
     * result is the value at `increment_idx`, or 0.0 past the batch.
     */
    method Sample(timeIdx: nat, scenarioIdx: nat, incrementIdx: nat) returns (x: real)
      requires Valid()
      modifies this
      ensures Valid()
      ensures IsStepCached(old(lastStep), timeIdx, scenarioIdx) ==> lastStep == old(lastStep) && drawn == old(drawn)
      ensures !IsStepCached(old(lastStep), timeIdx, scenarioIdx) ==>
        lastStep == Some(StepCache(Some(timeIdx), scenarioIdx, Window(stream, old(drawn), numIncrements)))
        && drawn == old(drawn) + numIncrements
      ensures IsStepCached(lastStep, timeIdx, scenarioIdx)
      ensures incrementIdx < numIncrements ==> x == lastStep.value.values[incrementIdx]
      ensures incrementIdx >= numIncrements ==> x == 0.0
    {
      if !IsStepCached(lastStep, timeIdx, scenarioIdx) {
        RefreshCache(timeIdx, scenarioIdx);
      }
      var values := lastStep.value.values;
      x := if incrementIdx < |values| then values[incrementIdx] else 0.0;
    }
  }

  // ---------------------------------------------------------------------------
  // Scrambler

  /** `MANTISSA_MASK`: the 52 fraction bits of an `f64`. */
  const MantissaMask: bv64 := 0x000F_FFFF_FFFF_FFFF

  /** The sign bit and the 11 exponent bits of an `f64`. */
  const TopMask: bv64 := 0xFFF0_0000_0000_0000

  /** One scrambled pattern: the masked word flips fraction bits only. */
  function ScrambleValue(value: bv64, word: bv64): (r: bv64)
    ensures r ^ (word & MantissaMask) == value
  {
    value ^ (word & MantissaMask)
  }

  /** The scrambled vector: each pattern flipped by the next word of the stream. */
  function Scrambled(values: seq<bv64>, words: nat -> bv64, start: nat): (r: seq<bv64>)
    ensures |r| == |values|
  {
    seq(|values|, i requires 0 <= i < |values| => ScrambleValue(values[i], words(start + i)))
  }

  /** Scrambling keeps the sign and the exponent of the pattern. */
  lemma ScrambleValueSpec(value: bv64, word: bv64)
    ensures ScrambleValue(value, word) & TopMask == value & TopMask
  {
  }

  /** The masked offsets only touch the fraction bits: every sign and exponent stays. */
  lemma ScrambleKeepsTop(values: seq<bv64>, words: nat -> bv64, start: nat)
    ensures forall i :: 0 <= i < |values| ==> Scrambled(values, words, start)[i] & TopMask == values[i] & TopMask
  {
    forall i | 0 <= i < |values|
      ensures Scrambled(values, words, start)[i] & TopMask == values[i] & TopMask
    {
      ScrambleValueSpec(values[i], words(start + i));
    }
  }

  class XorScrambler {
    /** The words of its own ChaCha stream, by position. */
    const words: nat -> bv64
    /** How many words it has used. */
    var used: nat

    /** `XORScrambler::new`. */
    constructor (words: nat -> bv64)
      ensures this.words == words && used == 0
    {
      this.words := words;
      used := 0;
    }

    /** `scramble`: flips fraction bits of every value in place, one word per value. */
    method Scramble(values: array<bv64>)
      modifies this, values
      ensures values[..] == Scrambled(old(values[..]), words, old(used))
      ensures used == old(used) + values.Length
    {
      var start := used;
      ghost var expected := Scrambled(values[..], words, start);
      for i := 0 to values.Length
        invariant forall k :: 0 <= k < i ==> values[k] == expected[k]
        invariant forall k :: i <= k < values.Length ==> values[k] == old(values[k])
      {
        values[i] := ScrambleValue(values[i], words(start + i));
      }
      used := start + values.Length;
      assert forall k :: 0 <= k < values.Length ==> values[k] == expected[k];
    }
  }

  // ---------------------------------------------------------------------------
  // Sobol source

  /** `dims`: one coordinate per increment and time step of a path. */
  function Dims(numIncrements: nat, numTimesteps: nat): (r: nat)
    requires numTimesteps >= 1
    ensures r == 0 <==> numTimesteps == 1 || numIncrements == 0
  {
    (numTimesteps - 1) * numIncrements
  }

  /** The coordinate of a path vector that an increment of a time step reads. */
  function PathIndex(timeIdx: nat, incrementIdx: nat, numIncrements: nat): (r: nat)
    ensures incrementIdx < numIncrements ==> r / numIncrements == timeIdx && r % numIncrements == incrementIdx
  {
    var r := timeIdx * numIncrements + incrementIdx;
    if incrementIdx < numIncrements then
      DivModOfBlock(r, timeIdx, numIncrements);
      r
    else r
  }

  /** A time step of the path and an increment index lie inside the path vector. */
  lemma PathIndexInRange(timeIdx: nat, incrementIdx: nat, numIncrements: nat, numTimesteps: nat)
    requires numTimesteps >= 1 && timeIdx < numTimesteps - 1 && incrementIdx < numIncrements
    ensures PathIndex(timeIdx, incrementIdx, numIncrements) < Dims(numIncrements, numTimesteps)
  {
    assert (timeIdx + 1) * numIncrements <= (numTimesteps - 1) * numIncrements by {
      MulMonotone(timeIdx + 1, numTimesteps - 1, numIncrements);
    }
  }

  /** Distinct (time, increment) pairs read distinct coordinates. */
  lemma PathIndexInjective(t1: nat, i1: nat, t2: nat, i2: nat, numIncrements: nat)
    requires i1 < numIncrements && i2 < numIncrements
    requires PathIndex(t1, i1, numIncrements) == PathIndex(t2, i2, numIncrements)
    ensures t1 == t2 && i1 == i2
  {
  }

  /** The cache test of the Sobol source: only the scenario has to match. */
  predicate IsPathCached(lastStep: Option<StepCache<bv64>>, scenarioIdx: nat) {
    lastStep.Some? && lastStep.value.scenarioIdx == scenarioIdx
  }

  /** The value at `index` of the cached path, 0.0 past its end; `None` is the `unwrap` panic of an empty cache. */
  function PathValue(lastStep: Option<StepCache<bv64>>, index: nat): (r: Option<bv64>)
    ensures r.None? <==> lastStep.None?
    ensures r.Some? && index < |lastStep.value.values| ==> r.value == lastStep.value.values[index]
    ensures r.Some? && index >= |lastStep.value.values| ==> r.value == 0
  {
    if lastStep.None? then None
    else if index < |lastStep.value.values| then Some(lastStep.value.values[index])
    else Some(0)
  }

  class SobolRng {
    var lastStep: Option<StepCache<bv64>>
    const numIncrements: nat
    const dims: nat
    /** The points of the Sobol sequence of dimension `dims`. */
    const points: seq<seq<bv64>>
    /** The position of the next point the skipped iterator yields. */
    var pos: nat
    const scrambler: XorScrambler

    /** `SobolRng::new`: a sequence of dimension `dims`, skipped by 5 points. */
    constructor (numIncrements: nat, numTimesteps: nat, sobol: nat -> seq<seq<bv64>>, words: nat -> bv64)
      requires numTimesteps >= 1
      ensures this.numIncrements == numIncrements && dims == Dims(numIncrements, numTimesteps)
      ensures points == sobol(dims) && pos == 5 && lastStep == None
      ensures fresh(scrambler) && scrambler.words == words && scrambler.used == 0
    {
      this.numIncrements := numIncrements;
      dims := Dims(numIncrements, numTimesteps);
      points := sobol(Dims(numIncrements, numTimesteps));
      pos := 5;
      lastStep := None;
      scrambler := new XorScrambler(words);
    }

    /**
     * `refresh_cache`: the next point, scrambled, becomes the path of the
     * scenario; an exhausted sequence leaves the cache as it was.
     */
    method RefreshCache(scenarioIdx: nat)
      modifies this, scrambler
      ensures old(pos) < |points| ==>
        pos == old(pos) + 1
        && lastStep == Some(StepCache(None, scenarioIdx, Scrambled(points[old(pos)], scrambler.words, old(scrambler.used))))
        && scrambler.used == old(scrambler.used) + |points[old(pos)]|
      ensures old(pos) >= |points| ==> pos == old(pos) && lastStep == old(lastStep) && scrambler.used == old(scrambler.used)
    {
      if pos < |points| {
        var raw := points[pos];
        pos := pos + 1;
        var buffer := new bv64[|raw|];
        forall k | 0 <= k < |raw| {
          buffer[k] := raw[k];
        }
        assert buffer[..] == raw;
        scrambler.Scramble(buffer);
        lastStep := Some(StepCache(None, scenarioIdx, buffer[..]));
      }
    }

    /**
     * `sample`: a new path is drawn only when the scenario changes; the
     * result is the coordinate `time_idx * num_increments + increment_idx`.
     */
    method Sample(timeIdx: nat, scenarioIdx: nat, incrementIdx: nat) returns (r: Option<bv64>)
      modifies this, scrambler
      ensures IsPathCached(old(lastStep), scenarioIdx) ==>
        lastStep == old(lastStep) && pos == old(pos) && scrambler.used == old(scrambler.used)
      ensures !IsPathCached(old(lastStep), scenarioIdx) && old(pos) < |points| ==>
        pos == old(pos) + 1
        && lastStep == Some(StepCache(None, scenarioIdx, Scrambled(points[old(pos)], scrambler.words, old(scrambler.used))))
      ensures !IsPathCached(old(lastStep), scenarioIdx) && old(pos) >= |points| ==>
        pos == old(pos) && lastStep == old(lastStep)
      ensures r == PathValue(lastStep, PathIndex(timeIdx, incrementIdx, numIncrements))
    {
      if !IsPathCached(lastStep, scenarioIdx) {
        RefreshCache(scenarioIdx);
      }
      r := PathValue(lastStep, timeIdx * numIncrements + incrementIdx);
    }
  }
}
