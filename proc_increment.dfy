/**
 * The index-based increments of `src/proc/increment.rs`: the time increment,
 * the Wiener increment and the jump increment, each sampled at a time index
 * and a scenario index. The Wiener and jump increments keep the very last
 * value they produced and return it again, without asking the random source,
 * when the same (time, scenario) pair is sampled twice in a row.
 *
 * Floating-point functions (square root, exponential, the approximate
 * inverse normal distribution function) are parameters.
 */
module ProcIncrement {
  import opened Wrappers
  import opened Draws

  /** The consecutive differences of the time grid, `windows(2)` mapped to `w[1] - w[0]`. */
  function Deltas(ts: seq<real>): (r: seq<real>)
    ensures |r| == if |ts| == 0 then 0 else |ts| - 1
    ensures forall i :: 0 <= i < |r| ==> r[i] == ts[i + 1] - ts[i]
  {
    if |ts| < 2 then [] else [ts[1] - ts[0]] + Deltas(ts[1..])
  }

  function MapReal(f: real -> real, xs: seq<real>): (r: seq<real>)
    ensures |r| == |xs| && forall i :: 0 <= i < |xs| ==> r[i] == f(xs[i])
  {
    if xs == [] then [] else [f(xs[0])] + MapReal(f, xs[1..])
  }

  function Sum(xs: seq<real>): real {
    if xs == [] then 0.0 else xs[0] + Sum(xs[1..])
  }

  /** The steps add up to the length of the whole grid. */
  lemma {:induction false} DeltasTelescope(ts: seq<real>)
    requires |ts| >= 1
    ensures Sum(Deltas(ts)) == ts[|ts| - 1] - ts[0]
  {
    if |ts| >= 2 {
      DeltasTelescope(ts[1..]);
    }
  }

  // ---------------------------------------------------------------------------
  // Time increment

  datatype TimeIncrementor = TimeIncrementor(dts: seq<real>)

  /** `TimeIncrementor::new`. */
  function NewTime(timesteps: seq<real>): (r: TimeIncrementor)
    ensures |r.dts| == if |timesteps| == 0 then 0 else |timesteps| - 1
    ensures forall i :: 0 <= i < |r.dts| ==> r.dts[i] == timesteps[i + 1] - timesteps[i]
  {
    TimeIncrementor(Deltas(timesteps))
  }

  /** `TimeIncrementor::sample`: the step length; the scenario and the random source play no part. */
  function TimeSample(inc: TimeIncrementor, timeIdx: nat, scenarioIdx: nat): real
    requires timeIdx < |inc.dts|
  {
    inc.dts[timeIdx]
  }

  /** The time increment at index `t` is `t[i+1] - t[i]`, in every scenario. */
  lemma TimeSampleIsStep(timesteps: seq<real>, timeIdx: nat, scenarioIdx: nat)
    requires timeIdx + 1 < |timesteps|
    ensures |NewTime(timesteps).dts| == |timesteps| - 1
    ensures TimeSample(NewTime(timesteps), timeIdx, scenarioIdx) == timesteps[timeIdx + 1] - timesteps[timeIdx]
  {
  }

  // ---------------------------------------------------------------------------
  // The last-value register

  /** `LastValue`: the key and value of the last sample. */
  datatype LastValue = LastValue(timeIdx: nat, scenarioIdx: nat, value: real)

  /** The register holds the value for (time, scenario). */
  predicate Hit(last: Option<LastValue>, timeIdx: nat, scenarioIdx: nat) {
    last.Some? && last.value.scenarioIdx == scenarioIdx && last.value.timeIdx == timeIdx
  }

  // ---------------------------------------------------------------------------
  // Wiener increment

  class WienerIncrementor {
    var last: Option<LastValue>
    const idx: nat
    const sqrtDts: seq<real>

    /** `WienerIncrementor::new`: the square roots of the steps, and an empty register. */
    constructor (idx: nat, timesteps: seq<real>, sqrt: real -> real)
      ensures this.idx == idx && last == None
      ensures |sqrtDts| == |Deltas(timesteps)|
      ensures forall i :: 0 <= i < |sqrtDts| ==> sqrtDts[i] == sqrt(timesteps[i + 1] - timesteps[i])
    {
      this.idx := idx;
      sqrtDts := MapReal(sqrt, Deltas(timesteps));
      last := None;
    }

    /**
     * `sample`: a repeated (time, scenario) pair returns the registered value
     * and leaves the random source alone; otherwise the source is asked once,
     * for (time, scenario, idx), and the register then holds the new value.
     */
    method Sample(timeIdx: nat, scenarioIdx: nat, rng: Source<StepQuery>, invNormal: real -> real) returns (x: real)
      requires Hit(last, timeIdx, scenarioIdx) || timeIdx < |sqrtDts|
      modifies this, rng
      ensures Hit(old(last), timeIdx, scenarioIdx) ==>
        x == old(last).value.value && last == old(last) && rng.queries == old(rng.queries)
      ensures !Hit(old(last), timeIdx, scenarioIdx) ==>
        var q := StepQuery(timeIdx, scenarioIdx, idx);
        rng.queries == old(rng.queries) + [q]
        && x == sqrtDts[timeIdx] * invNormal(rng.answer(old(rng.queries), q))
      ensures last == Some(LastValue(timeIdx, scenarioIdx, x))
    {
      if last.Some? && last.value.scenarioIdx == scenarioIdx && last.value.timeIdx == timeIdx {
        return last.value.value;
      }
      var q := rng.Sample(StepQuery(timeIdx, scenarioIdx, idx));
      x := sqrtDts[timeIdx] * invNormal(q);
      last := Some(LastValue(timeIdx, scenarioIdx, x));
    }
  }

  // ---------------------------------------------------------------------------
  // Jump increment

  class JumpIncrementor {
    const lambda: real
    var last: Option<LastValue>
    const idx: nat
    const dts: seq<real>

    /** `JumpIncrementor::new`: the rate, the steps, and an empty register. */
    constructor (idx: nat, lambda: real, timesteps: seq<real>)
      ensures this.idx == idx && this.lambda == lambda && last == None
      ensures dts == Deltas(timesteps)
    {
      this.idx := idx;
      this.lambda := lambda;
      dts := Deltas(timesteps);
      last := None;
    }

    /**
     * `sample`: the same register behaviour as the Wiener increment; a new
     * value is the inverse Poisson count of the uniform for the rate times the
     * step.
     */
    method Sample(timeIdx: nat, scenarioIdx: nat, rng: Source<StepQuery>, exp: real -> real) returns (x: real)
      requires Hit(last, timeIdx, scenarioIdx) || timeIdx < |dts|
      modifies this, rng
      ensures Hit(old(last), timeIdx, scenarioIdx) ==>
        x == old(last).value.value && last == old(last) && rng.queries == old(rng.queries)
      ensures !Hit(old(last), timeIdx, scenarioIdx) ==>
        var q := StepQuery(timeIdx, scenarioIdx, idx);
        rng.queries == old(rng.queries) + [q]
        && x == InversePoisson(rng.answer(old(rng.queries), q), lambda * dts[timeIdx], exp) as real
      ensures last == Some(LastValue(timeIdx, scenarioIdx, x))
    {
      if last.Some? && last.value.scenarioIdx == scenarioIdx && last.value.timeIdx == timeIdx {
        return last.value.value;
      }
      var u := rng.Sample(StepQuery(timeIdx, scenarioIdx, idx));
      var effectiveLambda := lambda * dts[timeIdx];
      var numJumps := FastInversePoisson(u, effectiveLambda, exp);
      x := numJumps as real;
      last := Some(LastValue(timeIdx, scenarioIdx, x));
    }
  }

  // ---------------------------------------------------------------------------
  // Truncated inverse Poisson distribution function

  /** The search cap of `fast_inverse_poisson_cdf`. */
  const PoissonCap: nat := 200

  /** `p` after `k` rounds of the recurrence `p *= lambda / k`, from `p0`. */
  function PoissonTerm(p0: real, lambda: real, k: nat): real {
    if k == 0 then p0 else PoissonTerm(p0, lambda, k - 1) * (lambda / k as real)
  }

  /** `f` after `k` rounds: the terms 0 to `k` added up. */
  function PoissonSum(p0: real, lambda: real, k: nat): real {
    if k == 0 then p0 else PoissonSum(p0, lambda, k - 1) + PoissonTerm(p0, lambda, k)
  }

  function Pow(x: real, k: nat): real {
    if k == 0 then 1.0 else Pow(x, k - 1) * x
  }

  function Factorial(k: nat): (r: real)
    ensures r >= 1.0
  {
    if k == 0 then 1.0 else Factorial(k - 1) * k as real
  }

  /** The recurrence computes the Poisson probability `p0 * lambda^k / k!`. */
  lemma {:induction false} PoissonTermClosedForm(p0: real, lambda: real, k: nat)
    ensures PoissonTerm(p0, lambda, k) == p0 * Pow(lambda, k) / Factorial(k)
  {
    if k > 0 {
      var a, f := Pow(lambda, k - 1), Factorial(k - 1);
      assert PoissonTerm(p0, lambda, k) == (p0 * a / f) * (lambda / k as real) by {
        PoissonTermClosedForm(p0, lambda, k - 1);
      }
      StepOfQuotient(p0, a, f, lambda, k as real, Pow(lambda, k), Factorial(k));
    }
  }

  /** `(p0 * a / f) * (lambda / k)` is `p0 * (a * lambda) / (f * k)`. */
  lemma StepOfQuotient(p0: real, a: real, f: real, lambda: real, k: real, power: real, factorial: real)
    requires f != 0.0 && k != 0.0 && power == a * lambda && factorial == f * k
    ensures (p0 * a / f) * (lambda / k) == p0 * power / factorial
  {
  }

  /** The count `fast_inverse_poisson_cdf` returns, as a function of its inputs. */
  function InversePoisson(u: real, lambda: real, exp: real -> real): (k: nat)
    ensures k <= PoissonCap
  {
    if lambda <= 0.0 then 0 else PoissonSearch(u, lambda, exp(-lambda), 0)
  }

  /** The `while u > f && k < 200` loop from round `k`. */
  function PoissonSearch(u: real, lambda: real, p0: real, k: nat): (r: nat)
    requires k <= PoissonCap
    ensures k <= r <= PoissonCap
    decreases PoissonCap - k
  {
    if u > PoissonSum(p0, lambda, k) && k < PoissonCap then PoissonSearch(u, lambda, p0, k + 1) else k
  }

  /**
   * A rate that is not positive gives no jump; otherwise the count is at most
   * 200, every smaller count has a cumulative probability below `u`, and a
   * count below 200 is the first whose cumulative probability reaches `u`.
   */
  lemma {:induction false} InversePoissonSpec(u: real, lambda: real, exp: real -> real)
    ensures lambda <= 0.0 ==> InversePoisson(u, lambda, exp) == 0
    ensures lambda > 0.0 ==> var k := InversePoisson(u, lambda, exp); var p0 := exp(-lambda);
      (forall j :: 0 <= j < k ==> u > PoissonSum(p0, lambda, j))
      && (k < PoissonCap ==> u <= PoissonSum(p0, lambda, k))
  {
    if lambda > 0.0 {
      PoissonSearchSpec(u, lambda, exp(-lambda), 0);
    }
  }

  lemma {:induction false} PoissonSearchSpec(u: real, lambda: real, p0: real, k: nat)
    requires k <= PoissonCap
    requires forall j :: 0 <= j < k ==> u > PoissonSum(p0, lambda, j)
    ensures var r := PoissonSearch(u, lambda, p0, k);
      (forall j :: 0 <= j < r ==> u > PoissonSum(p0, lambda, j))
      && (r < PoissonCap ==> u <= PoissonSum(p0, lambda, r))
    decreases PoissonCap - k
  {
    if u > PoissonSum(p0, lambda, k) && k < PoissonCap {
      PoissonSearchSpec(u, lambda, p0, k + 1);
    }
  }

  /** A count with the property of the search is the one the search finds. */
  lemma {:induction false} PoissonSearchFinds(u: real, lambda: real, p0: real, i: nat, k: nat)
    requires i <= k <= PoissonCap
    requires forall j :: 0 <= j < k ==> u > PoissonSum(p0, lambda, j)
    requires k < PoissonCap ==> u <= PoissonSum(p0, lambda, k)
    ensures PoissonSearch(u, lambda, p0, i) == k
    decreases PoissonCap - i
  {
    if i < k {
      PoissonSearchFinds(u, lambda, p0, i + 1, k);
    }
  }

  /** `fast_inverse_poisson_cdf`: the cumulative sum is built term by term until it reaches `u` or 200 terms. */
  method FastInversePoisson(u: real, lambda: real, exp: real -> real) returns (k: nat)
    ensures k == InversePoisson(u, lambda, exp)
  {
    if lambda <= 0.0 {
      return 0;
    }
    var p := exp(-lambda);
    ghost var p0 := p;
    var f := p;
    k := 0;
    while u > f && k < PoissonCap
      invariant k <= PoissonCap
      invariant p == PoissonTerm(p0, lambda, k)
      invariant f == PoissonSum(p0, lambda, k)
      invariant forall j :: 0 <= j < k ==> u > PoissonSum(p0, lambda, j)
      decreases PoissonCap - k
    {
      k := k + 1;
      p := p * (lambda / k as real);
      f := f + p;
    }
    PoissonSearchFinds(u, lambda, p0, 0, k);
  }
}
