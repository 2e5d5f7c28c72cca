/**
 * The key-based random sources of `src/rng.rs`. Both keep a capacity-1
 * cache from a step key `(scenario, t_start, t_end)` to one number per
 * increment name: a repeated key answers from the cache, a new key draws a
 * whole batch first.
 *
 * The pseudo-random generator is an abstract stream of 64-bit words and the
 * Sobol generator an abstract sequence of points; a panic is `None`.
 */
module KeyedRng {
  import opened Wrappers
  import opened Maps
  import PI = ProcessIncrement

  const U64Max: nat := 0xFFFF_FFFF_FFFF_FFFF

  /** A value of `next_u64`. */
  type U64 = w: int | 0 <= w <= U64Max

  /** The one entry of the batch cache: a step key and the numbers drawn for it, by name. */
  datatype Batch = Batch(key: PI.StepKey, numbers: map<string, real>)

  /** `LruCache::contains` on the batch cache. */
  predicate Cached(cache: Option<Batch>, key: PI.StepKey) {
    cache.Some? && cache.value.key == key
  }

  // ---------------------------------------------------------------------------
  // Pseudo-random source

  /** The draw `next_u64() as f64 / u64::MAX as f64`. */
  function Uniform(w: U64): (r: real)
    ensures 0.0 <= r <= 1.0
  {
    w as real / U64Max as real
  }

  /**
   * The largest word draws exactly 1.0. A distribution function that stays
   * below 1 for every count, as the Poisson one does over the reals, never
   * reaches it, so the unbounded counting loop of the jump increment has no
   * count to stop at for that draw.
   */
  lemma MaxWordStallsJumpSearch(lambda: real, cdf: (real, nat) -> real)
    requires lambda > 0.0 && forall k: nat :: cdf(lambda, k) < 1.0
    ensures Uniform(U64Max) == 1.0
    ensures !PI.SearchEnds(Uniform(U64Max), lambda, cdf)
  {
  }

  /** The numbers drawn from the word stream starting at position `start`. */
  function Draws(words: nat -> U64, start: nat): nat -> real {
    (i: nat) => Uniform(words(start + i))
  }

  /** Every drawn number lies in [0, 1]. */
  lemma DrawsInUnit(names: seq<string>, words: nat -> U64, start: nat)
    ensures forall n :: n in Insertions(names, Draws(words, start)) ==> 0.0 <= Insertions(names, Draws(words, start))[n] <= 1.0
  {
    forall i: nat
      ensures 0.0 <= Draws(words, start)(i) <= 1.0
    {
      assert Draws(words, start)(i) == Uniform(words(start + i));
    }
    InsertionsAll(names, Draws(words, start), (x: real) => 0.0 <= x <= 1.0);
  }

  class PseudoRng {
    var cache: Option<Batch>
    const names: seq<string>
    /** The generator's stream of `next_u64` words. */
    const words: nat -> U64
    /** How many words the generator has handed out. */
    var drawn: nat

    /** A cached batch holds one number in [0, 1] for each increment name. */
    ghost predicate Valid()
      reads this
    {
      cache.Some? ==>
        cache.value.numbers.Keys == KeySet(names)
        && forall n :: n in cache.value.numbers ==> 0.0 <= cache.value.numbers[n] <= 1.0
    }

    /** `PseudoRng::new`: an empty cache of capacity 1 over a fresh generator. */
    constructor (names: seq<string>, words: nat -> U64)
      ensures this.names == names && this.words == words && cache == None && drawn == 0
      ensures Valid()
    {
      this.names := names;
      this.words := words;
      cache := None;
      drawn := 0;
    }

    /** The loop of a cache miss: one word per increment name, in order. */
    method DrawBatch() returns (rns: map<string, real>)
      modifies this
      ensures drawn == old(drawn) + |names|
      ensures rns == Insertions(names, Draws(words, old(drawn)))
      ensures cache == old(cache)
    {
      rns := map[];
      var i := 0;
      while i < |names|
        invariant i <= |names|
        invariant drawn == old(drawn) + i
        invariant rns == Insertions(names[..i], Draws(words, old(drawn)))
        invariant cache == old(cache)
      {
        var u := Uniform(words(drawn));
        InsertionsSnoc(names, i, Draws(words, old(drawn)));
        rns := rns[names[i] := u];
        drawn := drawn + 1;
        i := i + 1;
      }
      assert names[..i] == names;
    }

    /**
     * `sample`: a new key draws a batch of one word per name and replaces
     * the cached batch; a cached key draws nothing. The result is the
     * number under `name`, and `None` (the `unwrap` panic) when `name` is
     * not an increment name.
     */
    method Sample(scenario: int, tStart: real, tEnd: real, name: string) returns (r: Option<real>)
      requires Valid()
      modifies this
      ensures Valid()
      ensures var key := PI.StepKey(scenario, tStart, tEnd);
        if Cached(old(cache), key) then cache == old(cache) && drawn == old(drawn)
        else cache == Some(Batch(key, Insertions(names, Draws(words, old(drawn))))) && drawn == old(drawn) + |names|
      ensures r.Some? <==> name in names
      ensures r.Some? ==> cache.value.numbers[name] == r.value && 0.0 <= r.value <= 1.0
    {
      var key := PI.StepKey(scenario, tStart, tEnd);
      if !Cached(cache, key) {
        var rns := DrawBatch();
        InsertionsSpec(names, Draws(words, old(drawn)));
        DrawsInUnit(names, words, old(drawn));
        cache := Some(Batch(key, rns));
      }
      var numbers := cache.value.numbers;
      r := if name in numbers then Some(numbers[name]) else None;
    }
  }

  // ---------------------------------------------------------------------------
  // Sobol source

  /** The skip count `gen_range(100..=99999)`. */
  type Skip = n: nat | 100 <= n <= 99999 witness 100

  function Min(a: nat, b: nat): (r: nat)
    ensures r <= a && r <= b && (r == a || r == b)
  {
    if a <= b then a else b
  }

  /** The coordinates of a point, by position. */
  function Coordinates(point: seq<real>): nat -> real {
    (i: nat) => if i < |point| then point[i] else 0.0
  }

  /** The map built from `increment_names.iter().zip(point.iter())`: zip stops at the shorter list. */
  function Zipped(names: seq<string>, point: seq<real>): map<string, real> {
    Insertions(names[..Min(|names|, |point|)], Coordinates(point))
  }

  /**
   * The zipped map binds exactly the names that have a coordinate, each to
   * the coordinate at its last position among them.
   */
  lemma ZippedSpec(names: seq<string>, point: seq<real>)
    ensures Zipped(names, point).Keys == KeySet(names[..Min(|names|, |point|)])
    ensures forall n :: n in names[..Min(|names|, |point|)] ==>
      Zipped(names, point)[n] == point[LastIndex(names[..Min(|names|, |point|)], n)]
  {
    InsertionsSpec(names[..Min(|names|, |point|)], Coordinates(point));
  }

  class SobolRng {
    var cache: Option<Batch>
    const names: seq<string>
    /** The points of the Sobol sequence of the generator's dimension. */
    const points: seq<seq<real>>
    /** The position of the next point the skipped iterator yields. */
    var pos: nat

    /**
     * `SobolRng::new`: a generator whose dimension is the number of
     * increment names, skipped ahead by `skip` points.
     */
    constructor (names: seq<string>, sobol: nat -> seq<seq<real>>, skip: Skip)
      ensures this.names == names && points == sobol(|names|) && pos == skip && cache == None
    {
      this.names := names;
      points := sobol(|names|);
      pos := skip;
      cache := None;
    }

    /** The zip loop of a cache miss. */
    static method ZipPoint(names: seq<string>, point: seq<real>) returns (rns: map<string, real>)
      ensures rns == Zipped(names, point)
    {
      rns := map[];
      var i := 0;
      while i < |names| && i < |point|
        invariant i <= Min(|names|, |point|)
        invariant rns == Insertions(names[..i], Coordinates(point))
      {
        InsertionsSnoc(names, i, Coordinates(point));
        rns := rns[names[i] := point[i]];
        i := i + 1;
      }
      assert names[..Min(|names|, |point|)] == names[..i];
    }

    /**
     * `sample`: a new key takes the next point, if the sequence has one, and
     * caches it zipped to the names (an empty batch when it has none); a
     * cached key takes nothing. A name without a number gives 0.0.
     */
    method Sample(scenario: int, tStart: real, tEnd: real, name: string) returns (r: real)
      modifies this
      ensures var key := PI.StepKey(scenario, tStart, tEnd);
        if Cached(old(cache), key) then cache == old(cache) && pos == old(pos)
        else if old(pos) < |points| then cache == Some(Batch(key, Zipped(names, points[old(pos)]))) && pos == old(pos) + 1
        else cache == Some(Batch(key, map[])) && pos == old(pos)
      ensures cache.Some? && r == (if name in cache.value.numbers then cache.value.numbers[name] else 0.0)
    {
      var key := PI.StepKey(scenario, tStart, tEnd);
      if !Cached(cache, key) {
        var rns := map[];
        if pos < |points| {
          rns := ZipPoint(names, points[pos]);
          pos := pos + 1;
        }
        cache := Some(Batch(key, rns));
      }
      var numbers := cache.value.numbers;
      r := if name in numbers then numbers[name] else 0.0;
    }
  }
}
