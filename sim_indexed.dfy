/**
 * The index-based stepping drivers of `src/sim/mod.rs`, `src/sim/euler.rs`
 * and `src/sim/runge_kutta.rs`. Their filtration is addressed by (scenario
 * index, time index, process index) and carries the processes; its
 * declaration is not part of this model and is rebuilt from the calls the
 * drivers make (`times`, `scenarios`, `processes`, `get`, `set`, `new`).
 *
 * A coefficient closure `(filtration, time, time_idx, scenario_idx)` is
 * modelled as a function of the values of every process in the slice
 * `(scenario_idx, time_idx)` it is called with. An incrementor draw is a
 * function of the incrementor and the step `(time_idx, scenario_idx)`: the
 * last-value registers of `ProcIncrement` return the same value for every
 * call with the same pair inside one step. The random sign of the two-stage
 * scheme and the square root are parameters as well.
 */
module IndexedSim {
  import opened Wrappers
  import opened Levy
  import opened Schemes

  /** A coefficient closure, on the slice it reads, the time, the time index and the scenario index. */
  type Coefficient = (seq<real>, real, nat, nat) -> real

  type Process<I> = LevyProcess<Coefficient, I>

  /** Everything the drivers take from outside the filtration. */
  datatype Randomness<!I> = Randomness(
    /** `incrementor.sample(time_idx, scenario_idx, rng)`. */
    sample: (I, nat, nat) -> real,
    /** `rand::random_bool(0.5)` of the two-stage step at (scenario index, time index). */
    coin: (nat, nat) -> bool,
    /** `f64::sqrt`. */
    sqrt: real -> real)

  /** The scheme names `simulate` dispatches on. */
  datatype Scheme = Euler | RungeKutta

  function SchemeOf(name: string): (r: Option<Scheme>)
    ensures r == Some(Euler) <==> name == "euler"
    ensures r == Some(RungeKutta) <==> name == "runge-kutta"
  {
    if name == "euler" then Some(Euler)
    else if name == "runge-kutta" then Some(RungeKutta)
    else None
  }

  /** How `simulate` can end: normally, or in one of its two panics. */
  datatype Outcome = Completed | Panicked(why: Panic)

  /** `times.len() - 1` on an empty grid, and a scheme name that is neither of the two. */
  datatype Panic = TimeDeltaUnderflow | UnknownScheme

  /** The coefficient values of one process, each evaluated on `row` at the given time and indices. */
  function CoefficientValues<I>(p: Process<I>, row: seq<real>, time: real, timeIdx: nat, scenarioIdx: nat): seq<real> {
    seq(|p.coefficients|, j requires 0 <= j < |p.coefficients| => p.coefficients[j](row, time, timeIdx, scenarioIdx))
  }

  /** The draws of one process for the step `(time_idx, scenario_idx)`. */
  function DrawValues<I>(p: Process<I>, timeIdx: nat, scenarioIdx: nat, sample: (I, nat, nat) -> real): seq<real> {
    seq(|p.incrementors|, j requires 0 <= j < |p.incrementors| => sample(p.incrementors[j], timeIdx, scenarioIdx))
  }

  /**
   * The slice the Euler step writes: every process gets its value in `row`
   * plus `Σ c_j·d_j`, every coefficient evaluated on `row` itself.
   */
  function EulerRow<I>(processes: seq<Process<I>>, row: seq<real>, time: real, timeIdx: nat, scenarioIdx: nat,
                       sample: (I, nat, nat) -> real): (r: seq<real>)
    requires AllValid(processes) && |row| == |processes|
    ensures |r| == |processes|
  {
    seq(|processes|, i requires 0 <= i < |processes| =>
      row[i] + EulerSum(CoefficientValues(processes[i], row, time, timeIdx, scenarioIdx),
                        DrawValues(processes[i], timeIdx, scenarioIdx, sample), |processes[i].coefficients|))
  }

  /**
   * One stage of the two-stage step: `Schemes.StageSum` of every process,
   * the coefficients evaluated on `row` at `(time, coefficientTimeIdx,
   * coefficientScenarioIdx)`, the draws those of the step `(time_idx, scenario_idx)`.
   */
  function StageRow<I>(processes: seq<Process<I>>, row: seq<real>, time: real, coefficientTimeIdx: nat,
                       coefficientScenarioIdx: nat, timeIdx: nat, scenarioIdx: nat,
                       sample: (I, nat, nat) -> real, shift: real): (r: seq<real>)
    requires AllValid(processes)
    ensures |r| == |processes|
  {
    seq(|processes|, i requires 0 <= i < |processes| =>
      StageSum(CoefficientValues(processes[i], row, time, coefficientTimeIdx, coefficientScenarioIdx),
               DrawValues(processes[i], timeIdx, scenarioIdx, sample), shift, |processes[i].coefficients|))
  }

  /** `k1`: stage 1, with shift `-h` and the coefficients on `row` at the step itself. */
  function FirstStage<I>(processes: seq<Process<I>>, row: seq<real>, time: real, timeIdx: nat, scenarioIdx: nat,
                         sample: (I, nat, nat) -> real, h: real): (k1: seq<real>)
    requires AllValid(processes)
    ensures |k1| == |processes|
  {
    StageRow(processes, row, time, timeIdx, scenarioIdx, timeIdx, scenarioIdx, sample, -h)
  }

  /** The support point `x + k1` that stage 2 evaluates its coefficients on. */
  function Support<I>(processes: seq<Process<I>>, row: seq<real>, time: real, timeIdx: nat, scenarioIdx: nat,
                      sample: (I, nat, nat) -> real, h: real): (r: seq<real>)
    requires AllValid(processes) && |row| == |processes|
    ensures |r| == |processes|
  {
    Plus(row, FirstStage(processes, row, time, timeIdx, scenarioIdx, sample, h))
  }

  /** `k2`: stage 2, with shift `+h` and the coefficients on the support point at indices `(0, 0)`. */
  function SecondStage<I>(processes: seq<Process<I>>, row: seq<real>, time: real, timeIdx: nat, scenarioIdx: nat,
                          sample: (I, nat, nat) -> real, h: real): (k2: seq<real>)
    requires AllValid(processes) && |row| == |processes|
    ensures |k2| == |processes|
  {
    StageRow(processes, Support(processes, row, time, timeIdx, scenarioIdx, sample, h), time, 0, 0,
             timeIdx, scenarioIdx, sample, h)
  }

  /** The slice the two-stage step writes, with `h = sk·√dt`. */
  function RungeKuttaRow<I>(processes: seq<Process<I>>, row: seq<real>, time: real, timeIdx: nat, scenarioIdx: nat,
                            sample: (I, nat, nat) -> real, h: real): (r: seq<real>)
    requires AllValid(processes) && |row| == |processes|
    ensures |r| == |processes|
  {
    Averaged(row, FirstStage(processes, row, time, timeIdx, scenarioIdx, sample, h),
             SecondStage(processes, row, time, timeIdx, scenarioIdx, sample, h))
  }

  /**
   * When every coefficient gives the same values on the support point at
   * `(0, 0)` as on the slice at the step (state-independent coefficients),
   * the shifts `∓sk·√dt` of the two stages cancel and the two-stage step is
   * the Euler step.
   */
  lemma RungeKuttaReducesToEuler<I>(processes: seq<Process<I>>, row: seq<real>, time: real, timeIdx: nat,
                                    scenarioIdx: nat, sample: (I, nat, nat) -> real, h: real)
    requires AllValid(processes) && |row| == |processes|
    requires forall i :: 0 <= i < |processes| ==>
      CoefficientValues(processes[i], Support(processes, row, time, timeIdx, scenarioIdx, sample, h), time, 0, 0)
      == CoefficientValues(processes[i], row, time, timeIdx, scenarioIdx)
    ensures RungeKuttaRow(processes, row, time, timeIdx, scenarioIdx, sample, h)
         == EulerRow(processes, row, time, timeIdx, scenarioIdx, sample)
  {
    var rk := RungeKuttaRow(processes, row, time, timeIdx, scenarioIdx, sample, h);
    var eu := EulerRow(processes, row, time, timeIdx, scenarioIdx, sample);
    forall i | 0 <= i < |processes|
      ensures rk[i] == eu[i]
    {
      var p := processes[i];
      var cs := CoefficientValues(p, row, time, timeIdx, scenarioIdx);
      var ds := DrawValues(p, timeIdx, scenarioIdx, sample);
      StagesCancel(cs, ds, h, |p.coefficients|);
    }
  }

  // ---------------------------------------------------------------------------
  // The order of the steps

  /** One step of `simulate`: the scenario index and the time index it starts from. */
  datatype Step = Step(scenarioIdx: nat, timeIdx: nat)

  /** Scenario-major, then ascending time. */
  predicate StepBefore(a: Step, b: Step) {
    a.scenarioIdx < b.scenarioIdx || (a.scenarioIdx == b.scenarioIdx && a.timeIdx < b.timeIdx)
  }

  /** Two tables of slices with the same shape and the same slices are equal. */
  lemma SameGrid(a: seq<seq<seq<real>>>, b: seq<seq<seq<real>>>)
    requires |a| == |b| && forall s :: 0 <= s < |a| ==> |a[s]| == |b[s]|
    requires forall s, t :: 0 <= s < |a| && 0 <= t < |a[s]| ==> a[s][t] == b[s][t]
    ensures a == b
  {
    forall s | 0 <= s < |a|
      ensures a[s] == b[s]
    {
      assert a[s] == b[s];
    }
  }

  /** The steps of one scenario, in time order. */
  function ScenarioSteps(scenarioIdx: nat, numTimeDeltas: nat): (r: seq<Step>)
    ensures |r| == numTimeDeltas
    ensures forall t :: 0 <= t < numTimeDeltas ==> r[t] == Step(scenarioIdx, t)
  {
    seq(numTimeDeltas, t requires 0 <= t => Step(scenarioIdx, t))
  }

  /** The steps of the nested loops `for scenario_idx in 0..S { for time_idx in 0..T { … } }`. */
  function StepOrder(numScenarios: nat, numTimeDeltas: nat): seq<Step> {
    if numScenarios == 0 then []
    else StepOrder(numScenarios - 1, numTimeDeltas) + ScenarioSteps(numScenarios - 1, numTimeDeltas)
  }

  /**
   * The loops visit `S·T` steps in strictly increasing scenario-major order,
   * and they are exactly the pairs in range: every (scenario, time) pair once.
   */
  lemma {:induction false} StepOrderSpec(numScenarios: nat, numTimeDeltas: nat)
    ensures |StepOrder(numScenarios, numTimeDeltas)| == numScenarios * numTimeDeltas
    ensures forall i, j :: 0 <= i < j < |StepOrder(numScenarios, numTimeDeltas)| ==>
      StepBefore(StepOrder(numScenarios, numTimeDeltas)[i], StepOrder(numScenarios, numTimeDeltas)[j])
    ensures forall st :: st in StepOrder(numScenarios, numTimeDeltas) <==>
      st.scenarioIdx < numScenarios && st.timeIdx < numTimeDeltas
  {
    if numScenarios > 0 {
      var S, T := numScenarios - 1, numTimeDeltas;
      StepOrderSpec(S, T);
      var prefix, last := StepOrder(S, T), ScenarioSteps(S, T);
      var all := prefix + last;
      assert StepOrder(numScenarios, T) == all;
      assert |all| == S * T + T;
      forall i, j | 0 <= i < j < |all|
        ensures StepBefore(all[i], all[j])
      {
        if j < |prefix| {
          assert all[i] == prefix[i] && all[j] == prefix[j];
        } else if i < |prefix| {
          assert all[i] == prefix[i] && prefix[i] in prefix;
        }
      }
      forall st
        ensures st in all <==> st.scenarioIdx < numScenarios && st.timeIdx < T
      {
        if st.scenarioIdx == S && st.timeIdx < T {
          assert last[st.timeIdx] == st;
        }
      }
    }
  }

  /** The filtration of the index-based drivers: a value per (scenario index, time index, process index). */
  class Filtration<I> {
    const times: seq<real>
    const scenarios: seq<int>
    const processes: seq<Process<I>>
    /** The values, indexed `[scenario_idx, time_idx, process_idx]`. */
    const raw: array3<real>

    /** One value per index triple, and one incrementor per coefficient in every process. */
    predicate Valid() {
      raw.Length0 == |scenarios| && raw.Length1 == |times| && raw.Length2 == |processes| && AllValid(processes)
    }

    /** `Filtration::new(times, scenarios, processes, None)`: a table of zeros. */
    constructor (times: seq<real>, scenarios: seq<int>, processes: seq<Process<I>>)
      requires AllValid(processes)
      ensures Valid() && fresh(raw)
      ensures this.times == times && this.scenarios == scenarios && this.processes == processes
      ensures forall s: nat, t: nat, p: nat :: InBounds(s, t, p) ==> raw[s, t, p] == 0.0
    {
      this.times := times;
      this.scenarios := scenarios;
      this.processes := processes;
      raw := new real[|scenarios|, |times|, |processes|]((s, t, p) => 0.0);
    }

    predicate InBounds(s: nat, t: nat, p: nat) {
      s < raw.Length0 && t < raw.Length1 && p < raw.Length2
    }

    /** `get(scenario_idx, time_idx, process_idx)`. */
    function Get(s: nat, t: nat, p: nat): (r: real)
      requires InBounds(s, t, p)
      reads raw
      ensures Valid() ==> r == Slice(s, t)[p]
    {
      raw[s, t, p]
    }

    /** `set(scenario_idx, time_idx, process_idx, value)`: that cell and no other. */
    method Set(s: nat, t: nat, p: nat, v: real)
      requires InBounds(s, t, p)
      modifies raw
      ensures Get(s, t, p) == v
      ensures forall s': nat, t': nat, p': nat :: InBounds(s', t', p') && (s', t', p') != (s, t, p) ==>
        raw[s', t', p'] == old(raw[s', t', p'])
    {
      raw[s, t, p] := v;
    }

    /** The values of every process in slice `(s, t)`: what a coefficient closure called there reads. */
    function Slice(s: nat, t: nat): (r: seq<real>)
      requires Valid() && s < raw.Length0 && t < raw.Length1
      reads raw
      ensures |r| == |processes| && forall p :: 0 <= p < |r| ==> r[p] == raw[s, t, p]
    {
      seq(|processes|, p requires 0 <= p < |processes| reads raw => raw[s, t, p])
    }

    /** Every slice of the table, scenario by scenario. */
    function Grid(): (r: seq<seq<seq<real>>>)
      requires Valid()
      reads raw
      ensures |r| == |scenarios| && forall s :: 0 <= s < |r| ==> |r[s]| == |times|
    {
      seq(|scenarios|, s requires 0 <= s < |scenarios| reads raw =>
        seq(|times|, t requires 0 <= t < |times| reads raw => Slice(s, t)))
    }

    /** The entries of `Grid()` are the slices. */
    lemma GridSlices()
      requires Valid()
      ensures forall s: nat, t: nat :: s < |scenarios| && t < |times| ==> Grid()[s][t] == Slice(s, t)
    {
      var g := Grid();
      forall s: nat, t: nat | s < |scenarios| && t < |times|
        ensures g[s][t] == Slice(s, t)
      {
      }
    }

    /** Every cell outside slice `(s, t)` is as it was. */
    twostate predicate OnlySliceChanged(s: nat, t: nat)
      reads raw
    {
      forall s': nat, t': nat, p: nat :: InBounds(s', t', p) && (s' != s || t' != t) ==>
        raw[s', t', p] == old(raw[s', t', p])
    }

    /** The slice one step writes, for a known scheme. */
    function StepRow(scheme: Scheme, row: seq<real>, s: nat, t: nat, rnd: Randomness<I>): (r: seq<real>)
      requires Valid() && |row| == |processes| && t + 1 < |times|
      ensures |r| == |processes|
    {
      match scheme
      case Euler => EulerRow(processes, row, times[t], t, s, rnd.sample)
      case RungeKutta =>
        var sk := if rnd.coin(s, t) then 1.0 else -1.0;
        RungeKuttaRow(processes, row, times[t], t, s, rnd.sample, sk * rnd.sqrt(times[t + 1] - times[t]))
    }

    /**
     * The trajectory of scenario `s` up to time index `n`: slice 0 is `row0`
     * and slice `t + 1` is one step from slice `t`.
     */
    function Trajectory(scheme: Scheme, row0: seq<real>, s: nat, n: nat, rnd: Randomness<I>): (r: seq<seq<real>>)
      requires Valid() && |row0| == |processes| && n < |times|
      ensures |r| == n + 1 && r[0] == row0 && |r[n]| == |processes|
    {
      if n == 0 then [row0]
      else
        var prefix := Trajectory(scheme, row0, s, n - 1, rnd);
        prefix + [StepRow(scheme, prefix[n - 1], s, n - 1, rnd)]
    }

    /** The inner loop of `euler_iteration`: `get(s, t, p) + Σ c_j·x_j` for one process. */
    method EulerUpdate(s: nat, t: nat, p: nat, sample: (I, nat, nat) -> real) returns (val: real)
      requires Valid() && s < |scenarios| && t < |times| && p < |processes|
      ensures val == EulerRow(processes, Slice(s, t), times[t], t, s, sample)[p]
    {
      var time := times[t];
      var process := processes[p];
      val := Get(s, t, p);
      for j := 0 to |process.incrementors|
        invariant val == Get(s, t, p) + EulerSum(CoefficientValues(process, Slice(s, t), time, t, s),
                                                  DrawValues(process, t, s, sample), j)
      {
        var c := process.coefficients[j](Slice(s, t), time, t, s);
        var x := sample(process.incrementors[j], t, s);
        val := val + c * x;
      }
    }

    /**
     * `euler_iteration`: slice `t + 1` of scenario `s` becomes the Euler
     * update of slice `t`, every coefficient evaluated on slice `t` as it was
     * before the step; no other cell changes.
     */
    method EulerIteration(s: nat, t: nat, sample: (I, nat, nat) -> real)
      requires Valid() && s < |scenarios| && t + 1 < |times|
      modifies raw
      ensures Slice(s, t + 1) == EulerRow(processes, old(Slice(s, t)), times[t], t, s, sample)
      ensures OnlySliceChanged(s, t + 1)
      ensures forall s': nat, t': nat :: s' < |scenarios| && t' < |times| && (s' != s || t' != t + 1) ==>
        Slice(s', t') == old(Slice(s', t'))
    {
      ghost var row := Slice(s, t);
      ghost var target := EulerRow(processes, row, times[t], t, s, sample);
      for p := 0 to |processes|
        invariant forall s': nat, t': nat, q: nat :: InBounds(s', t', q) ==>
          raw[s', t', q] == if s' == s && t' == t + 1 && q < p then target[q] else old(raw[s', t', q])
      {
        assert Slice(s, t) == row;
        var val := EulerUpdate(s, t, p, sample);
        Set(s, t + 1, p, val);
      }
      assert forall q :: 0 <= q < |processes| ==> Slice(s, t + 1)[q] == target[q];
      forall s': nat, t': nat | s' < |scenarios| && t' < |times| && (s' != s || t' != t + 1)
        ensures Slice(s', t') == old(Slice(s', t'))
      {
        assert forall q :: 0 <= q < |processes| ==> Slice(s', t')[q] == old(Slice(s', t'))[q];
      }
    }

    /**
     * Stage 1 of `runge_kutta_iteration`: `k1` of every process, and
     * `get(s, t, p) + k1[p]` written into the scratchpad at `(0, 0, p)`.
     */
    method StageOne(s: nat, t: nat, sample: (I, nat, nat) -> real, h: real, scratch: Filtration<I>) returns (k1: seq<real>)
      requires Valid() && scratch.Valid() && scratch.raw != raw
      requires s < |scenarios| && t < |times|
      requires |scratch.scenarios| >= 1 && |scratch.times| >= 1 && |scratch.processes| == |processes|
      modifies scratch.raw
      ensures k1 == FirstStage(processes, Slice(s, t), times[t], t, s, sample, h)
      ensures scratch.Slice(0, 0) == Support(processes, Slice(s, t), times[t], t, s, sample, h)
      ensures scratch.OnlySliceChanged(0, 0)
    {
      ghost var row := Slice(s, t);
      ghost var k1s := FirstStage(processes, row, times[t], t, s, sample, h);
      var time := times[t];
      k1 := [];
      for p := 0 to |processes|
        invariant k1 == k1s[..p]
        invariant forall s': nat, t': nat, q: nat :: scratch.InBounds(s', t', q) ==>
          scratch.raw[s', t', q] == if s' == 0 && t' == 0 && q < p then row[q] + k1s[q] else old(scratch.raw[s', t', q])
      {
        var process := processes[p];
        var stepK1 := 0.0;
        ghost var cs, ds := CoefficientValues(process, row, time, t, s), DrawValues(process, t, s, sample);
        for j := 0 to |process.incrementors|
          invariant stepK1 == StageSum(cs, ds, -h, j)
        {
          var c := process.coefficients[j](Slice(s, t), time, t, s);
          var d := sample(process.incrementors[j], t, s);
          assert c == cs[j] && d == ds[j];
          stepK1 := stepK1 + if j == 0 then c * d else c * (d - h);
        }
        scratch.Set(0, 0, p, Get(s, t, p) + stepK1);
        k1 := k1 + [stepK1];
        assert k1s[..p + 1] == k1s[..p] + [k1s[p]];
      }
      assert k1s[..|processes|] == k1s;
      assert forall q :: 0 <= q < |processes| ==>
        scratch.Slice(0, 0)[q] == Support(processes, row, time, t, s, sample, h)[q];
    }

    /** Stage 2 of `runge_kutta_iteration`: `k2` of every process, the coefficients evaluated on the scratchpad at `(0, 0)`. */
    method StageTwo(s: nat, t: nat, sample: (I, nat, nat) -> real, h: real, scratch: Filtration<I>) returns (k2: seq<real>)
      requires Valid() && scratch.Valid() && t < |times|
      requires |scratch.scenarios| >= 1 && |scratch.times| >= 1
      ensures k2 == StageRow(processes, scratch.Slice(0, 0), times[t], 0, 0, t, s, sample, h)
    {
      ghost var k2s := StageRow(processes, scratch.Slice(0, 0), times[t], 0, 0, t, s, sample, h);
      var time := times[t];
      k2 := [];
      for p := 0 to |processes|
        invariant k2 == k2s[..p]
      {
        var process := processes[p];
        var stepK2 := 0.0;
        for j := 0 to |process.incrementors|
          invariant stepK2 == StageSum(CoefficientValues(process, scratch.Slice(0, 0), time, 0, 0),
                                       DrawValues(process, t, s, sample), h, j)
        {
          var c := process.coefficients[j](scratch.Slice(0, 0), time, 0, 0);
          var d := sample(process.incrementors[j], t, s);
          stepK2 := stepK2 + if j == 0 then c * d else c * (d + h);
        }
        k2 := k2 + [stepK2];
        assert k2s[..p + 1] == k2s[..p] + [k2s[p]];
      }
      assert k2s[..|processes|] == k2s;
    }

    /** The final loop of `runge_kutta_iteration`: `get(s, t, p) + 0.5·(k1[p] + k2[p])` into slice `t + 1`. */
    method FinalUpdate(s: nat, t: nat, k1: seq<real>, k2: seq<real>)
      requires Valid() && s < |scenarios| && t + 1 < |times|
      requires |k1| == |processes| && |k2| == |processes|
      modifies raw
      ensures Slice(s, t + 1) == Averaged(old(Slice(s, t)), k1, k2)
      ensures OnlySliceChanged(s, t + 1)
    {
      ghost var target := Averaged(Slice(s, t), k1, k2);
      for p := 0 to |processes|
        invariant forall s': nat, t': nat, q: nat :: InBounds(s', t', q) ==>
          raw[s', t', q] == if s' == s && t' == t + 1 && q < p then target[q] else old(raw[s', t', q])
      {
        var val := Get(s, t, p) + 0.5 * (k1[p] + k2[p]);
        Set(s, t + 1, p, val);
      }
      assert forall q :: 0 <= q < |processes| ==> Slice(s, t + 1)[q] == target[q];
    }

    /** Both stages: `k1`, the support point `x + k1` in the scratchpad, then `k2` evaluated on it. */
    method Stages(s: nat, t: nat, sample: (I, nat, nat) -> real, h: real, scratch: Filtration<I>) returns (k1: seq<real>, k2: seq<real>)
      requires Valid() && scratch.Valid() && scratch.raw != raw
      requires s < |scenarios| && t < |times|
      requires |scratch.scenarios| >= 1 && |scratch.times| >= 1 && |scratch.processes| == |processes|
      modifies scratch.raw
      ensures k1 == FirstStage(processes, Slice(s, t), times[t], t, s, sample, h)
      ensures k2 == SecondStage(processes, Slice(s, t), times[t], t, s, sample, h)
      ensures scratch.Slice(0, 0) == Support(processes, Slice(s, t), times[t], t, s, sample, h)
      ensures scratch.OnlySliceChanged(0, 0)
    {
      k1 := StageOne(s, t, sample, h, scratch);
      k2 := StageTwo(s, t, sample, h, scratch);
    }

    /**
     * `runge_kutta_iteration` with the sign `sk`: stage 1 finishes for every
     * process before stage 2 starts, so the scratchpad holds the whole
     * support point `x + k1` when stage 2 evaluates its coefficients there;
     * slice `t + 1` becomes `x + ½(k1 + k2)`. The scratchpad's earlier
     * contents play no part.
     */
    method RungeKuttaIteration(s: nat, t: nat, sample: (I, nat, nat) -> real, sk: real, sqrt: real -> real,
                               scratch: Filtration<I>)
      requires Valid() && scratch.Valid() && scratch.raw != raw
      requires s < |scenarios| && t + 1 < |times|
      requires |scratch.scenarios| >= 1 && |scratch.times| >= 1 && |scratch.processes| == |processes|
      requires sk == 1.0 || sk == -1.0
      modifies raw, scratch.raw
      ensures Slice(s, t + 1) == RungeKuttaRow(processes, old(Slice(s, t)), times[t], t, s, sample,
                                               sk * sqrt(times[t + 1] - times[t]))
      ensures OnlySliceChanged(s, t + 1)
      ensures forall s': nat, t': nat :: s' < |scenarios| && t' < |times| && (s' != s || t' != t + 1) ==>
        Slice(s', t') == old(Slice(s', t'))
      ensures scratch.Slice(0, 0) == Support(processes, old(Slice(s, t)), times[t], t, s, sample,
                                             sk * sqrt(times[t + 1] - times[t]))
      ensures scratch.OnlySliceChanged(0, 0)
    {
      var sqrtDt := sqrt(times[t + 1] - times[t]);
      var h := sk * sqrtDt;
      ghost var row := Slice(s, t);
      var k1, k2 := Stages(s, t, sample, h, scratch);
      assert Slice(s, t) == row by {
        assert forall q :: 0 <= q < |processes| ==> Slice(s, t)[q] == row[q];
      }
      ghost var support := scratch.Slice(0, 0);
      assert support == Support(processes, row, times[t], t, s, sample, h);
      FinalUpdate(s, t, k1, k2);
      assert Slice(s, t + 1) == RungeKuttaRow(processes, row, times[t], t, s, sample, h);
      assert row == old(Slice(s, t)) && h == sk * sqrt(times[t + 1] - times[t]);
      assert scratch.Slice(0, 0) == support by {
        assert forall q :: 0 <= q < |processes| ==> scratch.Slice(0, 0)[q] == support[q];
      }
      forall s': nat, t': nat | s' < |scenarios| && t' < |times| && (s' != s || t' != t + 1)
        ensures Slice(s', t') == old(Slice(s', t'))
      {
        assert forall q :: 0 <= q < |processes| ==> Slice(s', t')[q] == old(Slice(s', t'))[q];
      }
    }

    /** The scratchpad `simulate` hands to the two-stage step. */
    ghost predicate IsScratchpad(scratch: Filtration<I>) {
      scratch.Valid() && scratch.raw != raw
      && scratch.times == [0.0] && scratch.scenarios == [0] && scratch.processes == processes
    }

    /**
     * One step of `simulate`, dispatched on the scheme name: `"euler"` and
     * `"runge-kutta"` write slice `t + 1` from slice `t` and touch no other
     * slice; any other name panics before anything is written.
     */
    method Dispatch(s: nat, t: nat, scheme: string, rnd: Randomness<I>, scratch: Filtration?<I>) returns (panicked: bool)
      requires Valid() && s < |scenarios| && t + 1 < |times|
      requires scheme == "runge-kutta" ==> scratch != null && IsScratchpad(scratch)
      modifies raw, if scratch != null then {scratch.raw} else {}
      ensures panicked <==> SchemeOf(scheme).None?
      ensures panicked ==> unchanged(raw)
      ensures !panicked ==>
        Grid() == old(Grid())[s := old(Grid())[s][t + 1 := StepRow(SchemeOf(scheme).value, old(Grid())[s][t], s, t, rnd)]]
    {
      if scheme == "euler" {
        EulerIteration(s, t, rnd.sample);
      } else if scheme == "runge-kutta" {
        var sk := if rnd.coin(s, t) then 1.0 else -1.0;
        RungeKuttaIteration(s, t, rnd.sample, sk, rnd.sqrt, scratch);
      } else {
        return true;
      }
      panicked := false;
      ghost var expected := old(Grid())[s := old(Grid())[s][t + 1 := StepRow(SchemeOf(scheme).value, old(Grid())[s][t], s, t, rnd)]];
      SameGrid(Grid(), expected);
    }

    /** Each of the slices `1..=ti` in `rows` is one step of scenario `s` from the slice before it. */
    ghost predicate Stepped(scheme: Scheme, rows: seq<seq<real>>, s: nat, ti: nat, rnd: Randomness<I>)
      requires Valid() && ti < |rows| <= |times|
    {
      forall t :: 0 <= t < ti ==> |rows[t]| == |processes| && rows[t + 1] == StepRow(scheme, rows[t], s, t, rnd)
    }

    /**
     * Slices that start from `row0` and each of which is one step from the
     * one before are the trajectory from `row0`: the steps determine the table.
     */
    lemma {:induction false} SteppedIsTrajectory(scheme: Scheme, rows: seq<seq<real>>, s: nat, n: nat, rnd: Randomness<I>)
      requires Valid() && n < |rows| <= |times| && |rows[0]| == |processes| && Stepped(scheme, rows, s, n, rnd)
      ensures rows[..n + 1] == Trajectory(scheme, rows[0], s, n, rnd)
    {
      if n > 0 {
        assert Stepped(scheme, rows, s, n - 1, rnd);
        SteppedIsTrajectory(scheme, rows, s, n - 1, rnd);
        var prefix := Trajectory(scheme, rows[0], s, n - 1, rnd);
        assert prefix[n - 1] == rows[n - 1];
        assert rows[n] == StepRow(scheme, prefix[n - 1], s, n - 1, rnd);
        assert rows[..n + 1] == prefix + [rows[n]];
      }
    }

    /**
     * After the steps `0..ti` of scenario `s`: its first slice is that of
     * `start` and each of its slices `1..=ti` is one step from the one
     * before; its later slices and every other scenario are as in `start`.
     */
    ghost predicate Progress(scheme: Scheme, start: seq<seq<seq<real>>>, grid: seq<seq<seq<real>>>,
                             s: nat, ti: nat, rnd: Randomness<I>)
      requires Valid()
    {
      && s < |scenarios| && ti < |times|
      && |start| == |grid| == |scenarios|
      && (forall s' :: 0 <= s' < |scenarios| ==> |start[s']| == |grid[s']| == |times| && |start[s'][0]| == |processes|)
      && (forall s' :: 0 <= s' < |scenarios| && s' != s ==> grid[s'] == start[s'])
      && (forall t' :: ti < t' < |times| ==> grid[s][t'] == start[s][t'])
      && grid[s][0] == start[s][0]
      && Stepped(scheme, grid[s], s, ti, rnd)
    }

    /** One more step of scenario `s` keeps `Progress`. */
    lemma ProgressStep(scheme: Scheme, start: seq<seq<seq<real>>>, grid: seq<seq<seq<real>>>, s: nat, ti: nat,
                       rnd: Randomness<I>)
      requires Valid() && Progress(scheme, start, grid, s, ti, rnd) && ti + 1 < |times|
      ensures |grid[s][ti]| == |processes|
      ensures Progress(scheme, start, grid[s := grid[s][ti + 1 := StepRow(scheme, grid[s][ti], s, ti, rnd)]], s, ti + 1, rnd)
    {
      if ti > 0 {
        assert |grid[s][ti - 1]| == |processes| && grid[s][ti] == StepRow(scheme, grid[s][ti - 1], s, ti - 1, rnd);
      }
      var rows := grid[s][ti + 1 := StepRow(scheme, grid[s][ti], s, ti, rnd)];
      forall t | 0 <= t < ti + 1
        ensures |rows[t]| == |processes| && rows[t + 1] == StepRow(scheme, rows[t], s, t, rnd)
      {
        if t < ti {
          assert |grid[s][t]| == |processes| && grid[s][t + 1] == StepRow(scheme, grid[s][t], s, t, rnd);
        }
      }
    }

    /**
     * After the scenarios `0..si`: each of them starts from its first slice
     * in `start` and is stepped throughout; the later ones are as in `start`.
     */
    ghost predicate Finished(scheme: Scheme, start: seq<seq<seq<real>>>, grid: seq<seq<seq<real>>>, si: nat,
                             rnd: Randomness<I>)
      requires Valid() && |times| >= 1
    {
      && si <= |scenarios| && |start| == |grid| == |scenarios|
      && (forall s' :: 0 <= s' < |scenarios| ==> |start[s']| == |grid[s']| == |times| && |start[s'][0]| == |processes|)
      && (forall s' :: 0 <= s' < si ==> grid[s'][0] == start[s'][0] && Stepped(scheme, grid[s'], s', |times| - 1, rnd))
      && (forall s' :: si <= s' < |scenarios| ==> grid[s'] == start[s'])
    }

    /** A whole scenario run on top of `Finished` scenarios `0..si` makes `0..si + 1` finished. */
    lemma FinishedStep(scheme: Scheme, start: seq<seq<seq<real>>>, before: seq<seq<seq<real>>>,
                       after: seq<seq<seq<real>>>, si: nat, rnd: Randomness<I>)
      requires Valid() && |times| >= 1 && si < |scenarios|
      requires Finished(scheme, start, before, si, rnd) && Progress(scheme, before, after, si, |times| - 1, rnd)
      ensures Finished(scheme, start, after, si + 1, rnd)
    {
    }

    /** `Dispatch` at step `t` of scenario `s`, which extends its `Progress` by one step. */
    method Advance(s: nat, t: nat, scheme: string, rnd: Randomness<I>, scratch: Filtration?<I>,
                   ghost start: seq<seq<seq<real>>>) returns (panicked: bool)
      requires Valid() && s < |scenarios| && t + 1 < |times|
      requires scheme == "runge-kutta" ==> scratch != null && IsScratchpad(scratch)
      requires SchemeOf(scheme).Some? ==> Progress(SchemeOf(scheme).value, start, Grid(), s, t, rnd)
      modifies raw, if scratch != null then {scratch.raw} else {}
      ensures panicked <==> SchemeOf(scheme).None?
      ensures panicked ==> unchanged(raw)
      ensures !panicked ==> Progress(SchemeOf(scheme).value, start, Grid(), s, t + 1, rnd)
    {
      ghost var grid := Grid();
      if SchemeOf(scheme).Some? {
        ProgressStep(SchemeOf(scheme).value, start, grid, s, t, rnd);
      }
      panicked := Dispatch(s, t, scheme, rnd, scratch);
    }

    /**
     * The time loop of `simulate` for scenario `s`: the steps `0..T` in
     * order, so that slice `t` ends up `t` steps from the scenario's first
     * slice. An unknown scheme name panics at the first step, before
     * anything is written.
     */
    method RunScenario(s: nat, scheme: string, rnd: Randomness<I>, scratch: Filtration?<I>)
      returns (panicked: bool, ghost visits: seq<Step>)
      requires Valid() && s < |scenarios| && |times| >= 1
      requires scheme == "runge-kutta" ==> scratch != null && IsScratchpad(scratch)
      modifies raw, if scratch != null then {scratch.raw} else {}
      ensures panicked <==> SchemeOf(scheme).None? && |times| > 1
      ensures SchemeOf(scheme).None? ==> unchanged(raw)
      ensures SchemeOf(scheme).Some? ==> visits == ScenarioSteps(s, |times| - 1)
      ensures SchemeOf(scheme).Some? ==> Progress(SchemeOf(scheme).value, old(Grid()), Grid(), s, |times| - 1, rnd)
    {
      ghost var known := SchemeOf(scheme);
      ghost var start := Grid();
      visits := [];
      for ti := 0 to |times| - 1
        invariant known.None? ==> ti == 0 && unchanged(raw)
        invariant |visits| == ti && forall k :: 0 <= k < ti ==> visits[k] == Step(s, k)
        invariant known.Some? ==> Progress(known.value, start, Grid(), s, ti, rnd)
      {
        var stop := Advance(s, ti, scheme, rnd, scratch, start);
        if stop {
          return true, visits;
        }
        visits := visits + [Step(s, ti)];
      }
      assert visits == ScenarioSteps(s, |times| - 1);
      panicked := false;
    }

    /**
     * `simulate`: with a known scheme, every (scenario, time) step runs once,
     * scenario-major with ascending time, so slice `t` of every scenario is
     * `t` steps from that scenario's first slice, which is never written.
     * The scratchpad is a fresh 1×1 filtration over the same processes,
     * created for `"runge-kutta"` only. An unknown scheme panics at the first
     * step, before anything is written; an empty time grid panics at once.
     */
    method Simulate(scheme: string, rnd: Randomness<I>) returns (outcome: Outcome, scratch: Filtration?<I>, ghost visits: seq<Step>)
      requires Valid()
      modifies raw
      ensures outcome == Panicked(TimeDeltaUnderflow) <==> |times| == 0
      ensures outcome == Panicked(UnknownScheme) <==>
        |times| > 1 && |scenarios| > 0 && SchemeOf(scheme).None?
      ensures SchemeOf(scheme).None? ==> unchanged(raw)
      ensures outcome.Completed? ==> visits == StepOrder(|scenarios|, |times| - 1)
      ensures SchemeOf(scheme).Some? ==>
        forall s: nat, t: nat :: s < |scenarios| && t + 1 < |times| ==>
          Slice(s, t + 1) == StepRow(SchemeOf(scheme).value, Slice(s, t), s, t, rnd)
      ensures forall s: nat :: s < |scenarios| && |times| > 0 ==> Slice(s, 0) == old(Slice(s, 0))
      ensures outcome != Panicked(TimeDeltaUnderflow) ==> (scratch != null <==> scheme == "runge-kutta")
      ensures scratch != null ==>
        fresh(scratch) && fresh(scratch.raw) && IsScratchpad(scratch)
    {
      visits := [];
      scratch := null;
      if |times| == 0 {
        return Panicked(TimeDeltaUnderflow), scratch, visits;
      }
      var numScenarios := |scenarios|;
      var numTimeDeltas := |times| - 1;
      if scheme == "runge-kutta" {
        scratch := new Filtration([0.0], [0], processes);
      }
      ghost var known := SchemeOf(scheme);
      ghost var start := Grid();
      GridSlices();
      for si := 0 to numScenarios
        invariant scratch != null <==> scheme == "runge-kutta"
        invariant scratch != null ==> fresh(scratch) && fresh(scratch.raw) && IsScratchpad(scratch)
        invariant known.Some? ==> visits == StepOrder(si, numTimeDeltas)
        invariant known.None? ==> (si == 0 || numTimeDeltas == 0) && visits == []
        invariant known.Some? ==> Finished(known.value, start, Grid(), si, rnd)
        invariant known.None? ==> unchanged(raw)
      {
        ghost var before := Grid();
        var panicked, steps := RunScenario(si, scheme, rnd, scratch);
        if panicked {
          return Panicked(UnknownScheme), scratch, visits;
        }
        if known.Some? {
          FinishedStep(known.value, start, before, Grid(), si, rnd);
          visits := visits + steps;
        }
      }
      GridSlices();
      if known.None? {
        StepOrderSpec(numScenarios, numTimeDeltas);
        visits := StepOrder(numScenarios, numTimeDeltas);
      }
      outcome := Completed;
    }
  }
}
