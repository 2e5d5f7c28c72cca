/**
 * The update formulas the stepping drivers share, on the coefficient values
 * `c_j` and the increment draws `d_j` of one process in one step.
 *
 * Euler adds `Σ c_j·d_j`. The two-stage Runge-Kutta scheme sums each stage
 * with term 0 as `c·d` and every later term as `c·(d + shift)`, where the
 * shift is `-sk·√dt` in stage 1 and `+sk·√dt` in stage 2 for a random sign
 * `sk`, and adds the mean of the two stage sums.
 */
module Schemes {
  /** `Σ_{j<n} cs[j]·ds[j]`, accumulated in index order as the incrementor loops do. */
  function EulerSum(cs: seq<real>, ds: seq<real>, n: nat): (r: real)
    requires n <= |cs| && n <= |ds|
    ensures (forall j :: 0 <= j < n ==> ds[j] == 0.0) ==> r == 0.0
    ensures (forall j :: 0 <= j < n ==> cs[j] == 0.0) ==> r == 0.0
  {
    if n == 0 then 0.0 else EulerSum(cs, ds, n - 1) + cs[n - 1] * ds[n - 1]
  }

  /** One stage term: the first term has no shift. */
  function StageTerm(j: nat, c: real, d: real, shift: real): real {
    if j == 0 then c * d else c * (d + shift)
  }

  /** The support point `x_old + k1` of every process. */
  function Plus(xs: seq<real>, ys: seq<real>): (r: seq<real>)
    requires |xs| == |ys|
    ensures |r| == |xs|
  {
    seq(|xs|, i requires 0 <= i < |xs| => xs[i] + ys[i])
  }

  /** `x_old + 0.5·(k1 + k2)` for every process; two equal stages add that stage once. */
  function Averaged(xs: seq<real>, k1: seq<real>, k2: seq<real>): (r: seq<real>)
    requires |xs| == |k1| == |k2|
    ensures |r| == |xs|
    ensures k1 == k2 ==> r == Plus(xs, k1)
  {
    seq(|xs|, i requires 0 <= i < |xs| => xs[i] + 0.5 * (k1[i] + k2[i]))
  }

  /** The sum of the first `n` stage terms. */
  function StageSum(cs: seq<real>, ds: seq<real>, shift: real, n: nat): real
    requires n <= |cs| && n <= |ds|
  {
    if n == 0 then 0.0 else StageSum(cs, ds, shift, n - 1) + StageTerm(n - 1, cs[n - 1], ds[n - 1], shift)
  }

  /** `Σ_{1<=j<n} cs[j]`: the coefficients the shift multiplies. */
  function ShiftedWeight(cs: seq<real>, n: nat): real
    requires n <= |cs|
  {
    if n <= 1 then 0.0 else ShiftedWeight(cs, n - 1) + cs[n - 1]
  }

  /** A stage sum is the Euler sum plus the shift times the coefficients of every term after the first. */
  lemma {:induction false} StageSumSplit(cs: seq<real>, ds: seq<real>, shift: real, n: nat)
    requires n <= |cs| && n <= |ds|
    ensures StageSum(cs, ds, shift, n) == EulerSum(cs, ds, n) + shift * ShiftedWeight(cs, n)
  {
    if n > 0 {
      StageSumSplit(cs, ds, shift, n - 1);
      if n > 1 {
        assert StageTerm(n - 1, cs[n - 1], ds[n - 1], shift) == cs[n - 1] * ds[n - 1] + shift * cs[n - 1];
      }
    }
  }

  /**
   * With the same coefficients in both stages (additive noise), the two
   * shifts cancel and the Runge-Kutta increment is the Euler increment.
   */
  lemma StagesCancel(cs: seq<real>, ds: seq<real>, h: real, n: nat)
    requires n <= |cs| && n <= |ds|
    ensures 0.5 * (StageSum(cs, ds, -h, n) + StageSum(cs, ds, h, n)) == EulerSum(cs, ds, n)
  {
    StageSumSplit(cs, ds, -h, n);
    StageSumSplit(cs, ds, h, n);
  }
}
