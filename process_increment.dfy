/**
 * The key-based increments of `src/process/increment.rs`, sampled for a
 * scenario and a time interval `[t_start, t_end]`. The Wiener and jump
 * increments keep a capacity-1 cache of the last interval they sampled:
 * a repeated key returns the cached value without a new random draw, and a
 * new key replaces the cached one.
 *
 * The normal inverse distribution function, the square root and the
 * Poisson distribution function are parameters; ordered floats are reals.
 */
module ProcessIncrement {
  import opened Wrappers
  import opened Draws

  /** The cache key `(scenario, t_start, t_end)`. */
  datatype StepKey = StepKey(scenario: int, tStart: real, tEnd: real)

  /** The one entry of a capacity-1 LRU cache. */
  datatype Entry = Entry(key: StepKey, value: real)

  /** `LruCache::contains`. */
  predicate Contains(cache: Option<Entry>, key: StepKey) {
    cache.Some? && cache.value.key == key
  }

  /** `LruCache::get`. */
  function Get(cache: Option<Entry>, key: StepKey): (r: Option<real>)
    ensures r.Some? <==> Contains(cache, key)
    ensures r.Some? ==> r.value == cache.value.value
  {
    if Contains(cache, key) then Some(cache.value.value) else None
  }

  /** `LruCache::put` at capacity 1: the new entry evicts the old one. */
  function Put(cache: Option<Entry>, key: StepKey, value: real): (r: Option<Entry>)
    ensures Get(r, key) == Some(value)
    ensures forall other :: other != key ==> !Contains(r, other)
  {
    Some(Entry(key, value))
  }

  // ---------------------------------------------------------------------------
  // Time increment

  datatype TimeIncrementor = TimeIncrementor(name: string)

  /** `TimeIncrementor::new`. */
  function NewTime(): TimeIncrementor {
    TimeIncrementor("dt")
  }

  /** `TimeIncrementor::sample`: the length of the interval, whatever the scenario and the source. */
  function TimeSample(inc: TimeIncrementor, scenario: int, tStart: real, tEnd: real): real {
    tEnd - tStart
  }

  /** The time increment is named `dt` and its sample is the interval's length, so consecutive intervals add up. */
  lemma TimeIncrementSpec(scenario: int, t0: real, t1: real, t2: real)
    ensures NewTime().name == "dt"
    ensures TimeSample(NewTime(), scenario, t0, t1) == t1 - t0
    ensures TimeSample(NewTime(), scenario, t0, t1) + TimeSample(NewTime(), scenario, t1, t2)
      == TimeSample(NewTime(), scenario, t0, t2)
  {
  }

  // ---------------------------------------------------------------------------
  // Wiener increment

  class WienerIncrementor {
    var cache: Option<Entry>
    const name: string

    /** `WienerIncrementor::new`: an empty cache of capacity 1. */
    constructor (name: string)
      ensures this.name == name && cache == None
    {
      this.name := name;
      cache := None;
    }

    /**
     * `sample`: a cached key returns its value without a draw; otherwise the
     * source is asked once, under this increment's name, and the cache then
     * holds only the new key.
     */
    method Sample(scenario: int, tStart: real, tEnd: real, rng: Source<KeyQuery>,
                  sqrt: real -> real, inverseCdf: real -> real) returns (x: real)
      modifies this, rng
      ensures var key := StepKey(scenario, tStart, tEnd);
        Contains(old(cache), key) ==> x == old(cache).value.value && cache == old(cache) && rng.queries == old(rng.queries)
      ensures var key := StepKey(scenario, tStart, tEnd); var q := KeyQuery(scenario, tStart, tEnd, name);
        !Contains(old(cache), key) ==>
          rng.queries == old(rng.queries) + [q]
          && x == sqrt(tEnd - tStart) * inverseCdf(rng.answer(old(rng.queries), q))
      ensures cache == Some(Entry(StepKey(scenario, tStart, tEnd), x))
    {
      var key := StepKey(scenario, tStart, tEnd);
      if !Contains(cache, key) {
        var q := rng.Sample(KeyQuery(scenario, tStart, tEnd, name));
        var increment := sqrt(tEnd - tStart) * inverseCdf(q);
        cache := Put(cache, key, increment);
      }
      var got := Get(cache, key);
      x := if got.Some? then got.value else 0.0;
    }
  }

  // ---------------------------------------------------------------------------
  // Jump increment

  /**
   * The jump count for uniform `u` and rate `lambda`: the smallest count
   * whose cumulative probability reaches `u`, or 0 when `Poisson::new`
   * refuses a rate that is not positive.
   */
  predicate IsJumpCount(k: nat, u: real, lambda: real, cdf: (real, nat) -> real) {
    if lambda <= 0.0 then k == 0
    else cdf(lambda, k) >= u && forall j :: 0 <= j < k ==> cdf(lambda, j) < u
  }

  /** The search stops only when some count reaches `u`. */
  ghost predicate SearchEnds(u: real, lambda: real, cdf: (real, nat) -> real) {
    lambda <= 0.0 || exists k: nat :: cdf(lambda, k) >= u
  }

  /** The count is unique: two counts with the property agree. */
  lemma JumpCountUnique(k: nat, m: nat, u: real, lambda: real, cdf: (real, nat) -> real)
    requires IsJumpCount(k, u, lambda, cdf) && IsJumpCount(m, u, lambda, cdf)
    ensures k == m
  {
  }

  /** The counting loop of `JumpIncrementor::sample`: the first count whose cumulative probability reaches `u`. */
  method JumpCount(u: real, lambda: real, cdf: (real, nat) -> real) returns (k: nat)
    requires SearchEnds(u, lambda, cdf)
    ensures IsJumpCount(k, u, lambda, cdf)
  {
    if lambda <= 0.0 {
      return 0;
    }
    ghost var bound: nat :| cdf(lambda, bound) >= u;
    k := 0;
    while cdf(lambda, k) < u
      invariant k <= bound
      invariant forall j :: 0 <= j < k ==> cdf(lambda, j) < u
      decreases bound - k
    {
      k := k + 1;
    }
  }

  /** A cached jump value: a whole count with the property above. */
  predicate IsJumpValue(x: real, u: real, lambda: real, cdf: (real, nat) -> real) {
    x == x.Floor as real && x.Floor >= 0 && IsJumpCount(x.Floor, u, lambda, cdf)
  }

  class JumpIncrementor {
    var cache: Option<Entry>
    const name: string
    const lambda: real

    /** `JumpIncrementor::new`: the rate and an empty cache of capacity 1. */
    constructor (name: string, lambda: real)
      ensures this.name == name && this.lambda == lambda && cache == None
    {
      this.name := name;
      this.lambda := lambda;
      cache := None;
    }

    /**
     * `sample`: the same cache behaviour as the Wiener increment; a new value
     * is the jump count of the uniform for the rate times the interval length.
     */
    method Sample(scenario: int, tStart: real, tEnd: real, rng: Source<KeyQuery>,
                  cdf: (real, nat) -> real) returns (x: real)
      requires var q := KeyQuery(scenario, tStart, tEnd, name);
        Contains(cache, StepKey(scenario, tStart, tEnd))
        || SearchEnds(rng.answer(rng.queries, q), lambda * (tEnd - tStart), cdf)
      modifies this, rng
      ensures var key := StepKey(scenario, tStart, tEnd);
        Contains(old(cache), key) ==> x == old(cache).value.value && cache == old(cache) && rng.queries == old(rng.queries)
      ensures var key := StepKey(scenario, tStart, tEnd); var q := KeyQuery(scenario, tStart, tEnd, name);
        !Contains(old(cache), key) ==>
          rng.queries == old(rng.queries) + [q]
          && IsJumpValue(x, rng.answer(old(rng.queries), q), lambda * (tEnd - tStart), cdf)
      ensures cache == Some(Entry(StepKey(scenario, tStart, tEnd), x))
    {
      var key := StepKey(scenario, tStart, tEnd);
      if !Contains(cache, key) {
        var u := rng.Sample(KeyQuery(scenario, tStart, tEnd, name));
        var effectiveLambda := lambda * (tEnd - tStart);
        var count := JumpCount(u, effectiveLambda, cdf);
        var numJumps := count as real;
        assert numJumps.Floor == count;
        cache := Put(cache, key, numJumps);
      }
      var got := Get(cache, key);
      x := if got.Some? then got.value else 0.0;
    }
  }
}
