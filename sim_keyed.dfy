/**
 * The key-based stepping drivers of `src/sim.rs`: `euler_iteration`,
 * `runge_kutta_iteration_reused` and `simulate`, over a `Filtration` whose
 * time slices are looked up by time value.
 *
 * A coefficient closure reads the filtration only through `value(t,
 * scenario, name)` at the time and scenario it is called with, so it is
 * modelled as a function of that snapshot. An incrementor draw is a
 * function of the incrementor and the step key `(scenario, t_start,
 * t_end)`: the capacity-1 caches of the increments return the same value
 * for every call with the same key inside one step.
 */
module KeyedSim {
  import opened Wrappers
  import opened Maps
  import opened Levy
  import opened Schemes
  import opened FiltrationTable
  import opened Arith

  /** A coefficient closure `(filtration, t, scenario) -> f64`, on what it looks up. */
  type Coefficient = (map<string, real>, real, int) -> real

  /** `incrementor.sample(scenario, t_start, t_end, rng)` for the current step. */
  type Sampler<-I> = (I, int, real, real) -> real

  type Process<I> = LevyProcess<Coefficient, I>

  /** The process names, in process order. */
  function Names<I>(processes: seq<Process<I>>): seq<string> {
    seq(|processes|, i requires 0 <= i < |processes| => processes[i].name)
  }

  /** The coefficient values of one process, each evaluated on `snapshot` at `(time, scenario)`. */
  function CoefficientValues<I>(p: Process<I>, snapshot: map<string, real>, time: real, scenario: int): seq<real> {
    seq(|p.coefficients|, j requires 0 <= j < |p.coefficients| => p.coefficients[j](snapshot, time, scenario))
  }

  /** The draws of one process for the step `(scenario, t_start, t_end)`. */
  function DrawValues<I>(p: Process<I>, scenario: int, tStart: real, tEnd: real, sample: Sampler<I>): seq<real> {
    seq(|p.incrementors|, j requires 0 <= j < |p.incrementors| => sample(p.incrementors[j], scenario, tStart, tEnd))
  }

  /** `value(time, scenario, name).unwrap_or(0.0)` for every process. */
  function Starts<I>(f: Filtration, processes: seq<Process<I>>, time: real, scenario: int): seq<real>
    requires f.Valid()
    reads f.raw
  {
    seq(|processes|, i requires 0 <= i < |processes| reads f.raw => f.ValueOr(time, scenario, processes[i].name))
  }

  /** The Euler increment `Σ c_j·d_j` of every process. */
  function EulerIncrements<I>(processes: seq<Process<I>>, snapshot: map<string, real>,
                              scenario: int, tStart: real, tEnd: real, sample: Sampler<I>): seq<real>
    requires AllValid(processes)
  {
    seq(|processes|, i requires 0 <= i < |processes| =>
      EulerSum(CoefficientValues(processes[i], snapshot, tStart, scenario),
               DrawValues(processes[i], scenario, tStart, tEnd, sample), |processes[i].coefficients|))
  }

  /** The sum of the stage terms (`Schemes.StageSum`) of every process for one stage. */
  function StageIncrements<I>(processes: seq<Process<I>>, snapshot: map<string, real>, coefficientTime: real,
                              coefficientScenario: int, scenario: int, tStart: real, tEnd: real,
                              sample: Sampler<I>, shift: real): seq<real>
    requires AllValid(processes)
  {
    seq(|processes|, i requires 0 <= i < |processes| =>
      StageSum(CoefficientValues(processes[i], snapshot, coefficientTime, coefficientScenario),
               DrawValues(processes[i], scenario, tStart, tEnd, sample), shift, |processes[i].coefficients|))
  }

  function SeqValues(rs: seq<real>): nat -> real {
    (i: nat) => if i < |rs| then rs[i] else 0.0
  }

  /** The map that `set_value(…, names[i], values[i])` for `i` in order leaves behind. */
  function Updates(names: seq<string>, values: seq<real>): map<string, real> {
    Insertions(names, SeqValues(values))
  }

  lemma PrefixSnoc<T>(s: seq<T>, i: nat)
    requires i < |s|
    ensures s[..i + 1] == s[..i] + [s[i]]
  {
  }

  /** Every cell of `f` outside row `(time, scenario)` is as it was. */
  twostate predicate RowFrame(f: Filtration, time: real, scenario: int)
    requires f.Valid()
    reads f.raw
  {
    forall t: nat, s: nat, p: nat :: f.InBounds(t, s, p) && !f.InRow(t, s, time, scenario) ==>
      f.raw[t, s, p] == old(f.raw[t, s, p])
  }

  /** The cells of `f` are those of `updates` written at `(time, scenario)` over the old ones. */
  twostate predicate RowWritten(f: Filtration, time: real, scenario: int, updates: map<string, real>)
    requires f.Valid()
    reads f.raw
  {
    forall t: nat, s: nat, p: nat :: f.InBounds(t, s, p) ==>
      f.raw[t, s, p] == if f.Written(t, s, p, time, scenario, updates) then updates[f.processNames[p]] else old(f.raw[t, s, p])
  }

  /** The inner loop of `euler_iteration`: `x(t_start) + Σ c_j·d_j` for one process. */
  method EulerUpdate<I>(f: Filtration, process: Process<I>, tStart: real, tEnd: real, scenario: int,
                        sample: Sampler<I>) returns (result: real)
    requires f.Valid() && process.Valid()
    ensures result == f.ValueOr(tStart, scenario, process.name)
      + EulerSum(CoefficientValues(process, f.Snapshot(tStart, scenario), tStart, scenario),
                 DrawValues(process, scenario, tStart, tEnd, sample), |process.coefficients|)
  {
    result := f.ValueOr(tStart, scenario, process.name);
    for j := 0 to |process.coefficients|
      invariant result == f.ValueOr(tStart, scenario, process.name)
        + EulerSum(CoefficientValues(process, f.Snapshot(tStart, scenario), tStart, scenario),
                   DrawValues(process, scenario, tStart, tEnd, sample), j)
    {
      var c := process.coefficients[j](f.Snapshot(tStart, scenario), tStart, scenario);
      var x := sample(process.incrementors[j], scenario, tStart, tEnd);
      result := result + c * x;
    }
  }

  /**
   * `euler_iteration`: every process gets `x(t_start) + Σ c_j·d_j` at
   * `t_end`, in process order, the coefficients evaluated at `t_start`. Only
   * the row `t_end` is written; when `t_start` and `t_end` are different
   * keys, the values read are those before the step.
   */
  method EulerIteration<I>(f: Filtration, processes: seq<Process<I>>, tStart: real, tEnd: real,
                           scenario: int, sample: Sampler<I>)
    requires f.Valid() && AllValid(processes)
    modifies f.raw
    ensures RowFrame(f, tEnd, scenario)
    ensures tStart != tEnd ==> RowWritten(f, tEnd, scenario, Updates(Names(processes),
      Plus(old(Starts(f, processes, tStart, scenario)),
           EulerIncrements(processes, old(f.Snapshot(tStart, scenario)), scenario, tStart, tEnd, sample))))
  {
    ghost var names := Names(processes);
    ghost var results := Plus(Starts(f, processes, tStart, scenario),
                              EulerIncrements(processes, f.Snapshot(tStart, scenario), scenario, tStart, tEnd, sample));
    for i := 0 to |processes|
      invariant RowFrame(f, tEnd, scenario)
      invariant tStart != tEnd ==> RowWritten(f, tEnd, scenario, Updates(names[..i], results))
    {
      var process := processes[i];
      if tStart != tEnd {
        assert tStart in f.times ==> f.times[LastIndex(f.times, tStart)] != tEnd;
        f.SliceUnchanged(tStart);
      }
      var result := EulerUpdate(f, process, tStart, tEnd, scenario, sample);
      InsertionsSnoc(names, i, SeqValues(results));
      ghost var written, next := Updates(names[..i], results), Updates(names[..i + 1], results);
      label beforeWrite:
      f.SetValue(tEnd, scenario, process.name, result);
      if tStart != tEnd {
        forall t: nat, s: nat, p: nat | f.InBounds(t, s, p)
          ensures f.raw[t, s, p] == if f.Written(t, s, p, tEnd, scenario, next) then next[f.processNames[p]] else old(f.raw[t, s, p])
        {
          f.WriteStep(t, s, p, tEnd, scenario, written, process.name, result,
                      old(f.raw[t, s, p]), old@beforeWrite(f.raw[t, s, p]), f.raw[t, s, p]);
        }
      }
    }
    assert names[..|processes|] == names;
  }

  /**
   * The inner loop of one Runge-Kutta stage for one process: term 0 is
   * `c·d`, every later term `c·(d + shift)`, the coefficients evaluated on
   * `g` at `(coefficientTime, coefficientScenario)`.
   */
  method StageUpdate<I>(g: Filtration, process: Process<I>, coefficientTime: real, coefficientScenario: int,
                        scenario: int, tStart: real, tEnd: real, sample: Sampler<I>, shift: real) returns (k: real)
    requires g.Valid() && process.Valid()
    ensures k == StageSum(CoefficientValues(process, g.Snapshot(coefficientTime, coefficientScenario), coefficientTime, coefficientScenario),
                          DrawValues(process, scenario, tStart, tEnd, sample), shift, |process.coefficients|)
  {
    k := 0.0;
    for j := 0 to |process.coefficients|
      invariant k == StageSum(CoefficientValues(process, g.Snapshot(coefficientTime, coefficientScenario), coefficientTime, coefficientScenario),
                              DrawValues(process, scenario, tStart, tEnd, sample), shift, j)
    {
      var c := process.coefficients[j](g.Snapshot(coefficientTime, coefficientScenario), coefficientTime, coefficientScenario);
      var d := sample(process.incrementors[j], scenario, tStart, tEnd);
      k := k + if j == 0 then c * d else c * (d + shift);
    }
  }

  /**
   * Stage 1 of `runge_kutta_iteration_reused`: `k1` of every process, and
   * `x_old + k1` written into the scratchpad row `(0.0, 0)` in process order.
   */
  method StageOne<I>(f: Filtration, processes: seq<Process<I>>, tStart: real, tEnd: real, scenario: int,
                     sample: Sampler<I>, scratch: Filtration, shift: real) returns (k1: seq<real>)
    requires f.Valid() && scratch.Valid() && AllValid(processes) && f.raw != scratch.raw
    modifies scratch.raw
    ensures k1 == StageIncrements(processes, f.Snapshot(tStart, scenario), tStart, scenario, scenario, tStart, tEnd, sample, shift)
    ensures RowWritten(scratch, 0.0, 0, Updates(Names(processes), Plus(Starts(f, processes, tStart, scenario), k1)))
  {
    ghost var names := Names(processes);
    ghost var k1s := StageIncrements(processes, f.Snapshot(tStart, scenario), tStart, scenario, scenario, tStart, tEnd, sample, shift);
    ghost var supports := Plus(Starts(f, processes, tStart, scenario), k1s);
    k1 := [];
    for i := 0 to |processes|
      invariant k1 == k1s[..i]
      invariant RowWritten(scratch, 0.0, 0, Updates(names[..i], supports))
    {
      var process := processes[i];
      var stepK1 := StageUpdate(f, process, tStart, scenario, scenario, tStart, tEnd, sample, shift);
      k1 := k1 + [stepK1];
      var xOld := f.ValueOr(tStart, scenario, process.name);
      InsertionsSnoc(names, i, SeqValues(supports));
      ghost var written, next := Updates(names[..i], supports), Updates(names[..i + 1], supports);
      label beforeWrite:
      scratch.SetValue(0.0, 0, process.name, xOld + stepK1);
      forall t: nat, s: nat, p: nat | scratch.InBounds(t, s, p)
        ensures scratch.raw[t, s, p] == if scratch.Written(t, s, p, 0.0, 0, next) then next[scratch.processNames[p]] else old(scratch.raw[t, s, p])
      {
        scratch.WriteStep(t, s, p, 0.0, 0, written, process.name, xOld + stepK1,
                          old(scratch.raw[t, s, p]), old@beforeWrite(scratch.raw[t, s, p]), scratch.raw[t, s, p]);
      }
      PrefixSnoc(k1s, i);
    }
    assert names[..|processes|] == names;
    assert k1s[..|processes|] == k1s;
  }

  /** Stage 2 of `runge_kutta_iteration_reused`: `k2` of every process, the coefficients read from the scratchpad. */
  method StageTwo<I>(processes: seq<Process<I>>, tStart: real, tEnd: real, scenario: int,
                     sample: Sampler<I>, scratch: Filtration, shift: real) returns (k2: seq<real>)
    requires scratch.Valid() && AllValid(processes)
    ensures k2 == StageIncrements(processes, scratch.Snapshot(0.0, 0), 0.0, 0, scenario, tStart, tEnd, sample, shift)
  {
    ghost var k2s := StageIncrements(processes, scratch.Snapshot(0.0, 0), 0.0, 0, scenario, tStart, tEnd, sample, shift);
    k2 := [];
    for i := 0 to |processes|
      invariant k2 == k2s[..i]
    {
      var stepK2 := StageUpdate(scratch, processes[i], 0.0, 0, scenario, tStart, tEnd, sample, shift);
      k2 := k2 + [stepK2];
      PrefixSnoc(k2s, i);
    }
    assert k2s[..|processes|] == k2s;
  }

  /** The final loop of `runge_kutta_iteration_reused`: `x_old + 0.5·(k1 + k2)` at `t_end`. */
  method FinalUpdate<I>(f: Filtration, processes: seq<Process<I>>, tStart: real, tEnd: real, scenario: int,
                        k1: seq<real>, k2: seq<real>)
    requires f.Valid() && |k1| == |processes| && |k2| == |processes|
    modifies f.raw
    ensures RowFrame(f, tEnd, scenario)
    ensures tStart != tEnd ==> RowWritten(f, tEnd, scenario, Updates(Names(processes),
      Averaged(old(Starts(f, processes, tStart, scenario)), k1, k2)))
  {
    ghost var names := Names(processes);
    ghost var finals := Averaged(Starts(f, processes, tStart, scenario), k1, k2);
    for i := 0 to |processes|
      invariant RowFrame(f, tEnd, scenario)
      invariant tStart != tEnd ==> RowWritten(f, tEnd, scenario, Updates(names[..i], finals))
    {
      var process := processes[i];
      if tStart != tEnd {
        assert tStart in f.times ==> f.times[LastIndex(f.times, tStart)] != tEnd;
        f.SliceUnchanged(tStart);
      }
      var xOld := f.ValueOr(tStart, scenario, process.name);
      var value := xOld + 0.5 * (k1[i] + k2[i]);
      InsertionsSnoc(names, i, SeqValues(finals));
      ghost var written, next := Updates(names[..i], finals), Updates(names[..i + 1], finals);
      label beforeWrite:
      f.SetValue(tEnd, scenario, process.name, value);
      if tStart != tEnd {
        forall t: nat, s: nat, p: nat | f.InBounds(t, s, p)
          ensures f.raw[t, s, p] == if f.Written(t, s, p, tEnd, scenario, next) then next[f.processNames[p]] else old(f.raw[t, s, p])
        {
          f.WriteStep(t, s, p, tEnd, scenario, written, process.name, value,
                      old(f.raw[t, s, p]), old@beforeWrite(f.raw[t, s, p]), f.raw[t, s, p]);
        }
      }
    }
    assert names[..|processes|] == names;
  }

  /** The stage shift `sk·√(t_end - t_start)`. */
  function RootShift(sk: real, sqrt: real -> real, tStart: real, tEnd: real): real {
    sk * sqrt(tEnd - tStart)
  }

  /**
   * `runge_kutta_iteration_reused` with the random sign `sk`. Stage 1 sums
   * the terms with shift `-sk·√dt` on the coefficients at `t_start` and
   * writes `x_old + k1` into the scratchpad row `(0.0, 0)`; stage 2 sums the
   * terms with shift `+sk·√dt` on the coefficients the scratchpad gives at
   * `(0.0, 0)`; the final loop writes `x_old + 0.5·(k1 + k2)` at `t_end`.
   */
  method RungeKuttaIteration<I>(f: Filtration, processes: seq<Process<I>>, tStart: real, tEnd: real,
                                scenario: int, sample: Sampler<I>, scratch: Filtration, sk: real, sqrt: real -> real)
    requires f.Valid() && scratch.Valid() && AllValid(processes) && f.raw != scratch.raw
    requires sk == 1.0 || sk == -1.0
    modifies f.raw, scratch.raw
    ensures RowFrame(f, tEnd, scenario)
    ensures RowWritten(scratch, 0.0, 0, Updates(Names(processes), Plus(old(Starts(f, processes, tStart, scenario)),
      StageIncrements(processes, old(f.Snapshot(tStart, scenario)), tStart, scenario, scenario, tStart, tEnd, sample, RootShift(-sk, sqrt, tStart, tEnd)))))
    ensures tStart != tEnd ==> RowWritten(f, tEnd, scenario, Updates(Names(processes), Averaged(old(Starts(f, processes, tStart, scenario)),
      StageIncrements(processes, old(f.Snapshot(tStart, scenario)), tStart, scenario, scenario, tStart, tEnd, sample, RootShift(-sk, sqrt, tStart, tEnd)),
      StageIncrements(processes, scratch.Snapshot(0.0, 0), 0.0, 0, scenario, tStart, tEnd, sample, RootShift(sk, sqrt, tStart, tEnd)))))
  {
    var dt := tEnd - tStart;
    var sqrtDt := sqrt(dt);
    assert RootShift(sk, sqrt, tStart, tEnd) == sk * sqrtDt && RootShift(-sk, sqrt, tStart, tEnd) == -sk * sqrtDt;
    ghost var names, starts := Names(processes), Starts(f, processes, tStart, scenario);
    ghost var k1s := StageIncrements(processes, f.Snapshot(tStart, scenario), tStart, scenario, scenario, tStart, tEnd, sample,
                                     RootShift(-sk, sqrt, tStart, tEnd));
    ghost var supports := Updates(names, Plus(starts, k1s));
    var k1 := StageOne(f, processes, tStart, tEnd, scenario, sample, scratch, -sk * sqrtDt);
    assert k1 == k1s && Starts(f, processes, tStart, scenario) == starts;
    label afterOne:
    var k2 := StageTwo(processes, tStart, tEnd, scenario, sample, scratch, sk * sqrtDt);
    FinalUpdate(f, processes, tStart, tEnd, scenario, k1, k2);
    forall t: nat, s: nat, p: nat | scratch.InBounds(t, s, p)
      ensures scratch.raw[t, s, p] == if scratch.Written(t, s, p, 0.0, 0, supports) then supports[scratch.processNames[p]] else old(scratch.raw[t, s, p])
    {
      assert scratch.raw[t, s, p] == old@afterOne(scratch.raw[t, s, p]);
    }
  }

  // ---------------------------------------------------------------------------
  // `simulate`

  /** One step of `simulate`: the scenario and the window `(t_start, t_end)` of the time grid. */
  datatype KeyStep = KeyStep(scenario: int, tStart: real, tEnd: real)

  /** The steps of one scenario: one per window of `time_steps.windows(2)`. */
  function Windows(scenario: int, timeSteps: seq<real>): (r: seq<KeyStep>)
    ensures |r| == if |timeSteps| < 2 then 0 else |timeSteps| - 1
    ensures forall k :: 0 <= k < |r| ==> r[k] == KeyStep(scenario, timeSteps[k], timeSteps[k + 1])
  {
    if |timeSteps| < 2 then []
    else seq(|timeSteps| - 1, k requires 0 <= k < |timeSteps| - 1 => KeyStep(scenario, timeSteps[k], timeSteps[k + 1]))
  }

  /** The steps of `for scenario in 1..=n { for ts in time_steps.windows(2) { … } }`, in order. */
  function KeyOrder(n: int, timeSteps: seq<real>): (r: seq<KeyStep>)
    ensures forall k :: 0 <= k < |r| ==> 1 <= r[k].scenario <= n
    decreases if n < 0 then 0 else n
  {
    if n <= 0 then [] else KeyOrder(n - 1, timeSteps) + Windows(n, timeSteps)
  }

  /**
   * `simulate` runs `w = |time_steps| - 1` steps per scenario, scenarios
   * `1..=n` in ascending order: step `i` is scenario `i / w + 1` over the
   * window starting at time position `i % w`. With fewer than two grid times,
   * or no scenario, there is no step.
   */
  lemma {:induction false} KeyOrderSpec(n: int, timeSteps: seq<real>)
    ensures (n <= 0 || |timeSteps| < 2) ==> KeyOrder(n, timeSteps) == []
    ensures n >= 0 && |timeSteps| >= 2 ==> |KeyOrder(n, timeSteps)| == n * (|timeSteps| - 1)
    ensures |timeSteps| >= 2 ==> forall i :: 0 <= i < |KeyOrder(n, timeSteps)| ==>
      var w := |timeSteps| - 1;
      KeyOrder(n, timeSteps)[i] == KeyStep(i / w + 1, timeSteps[i % w], timeSteps[i % w + 1])
  {
    KeyOrderLength(n, timeSteps);
    if |timeSteps| >= 2 {
      forall i | 0 <= i < |KeyOrder(n, timeSteps)|
        ensures KeyOrder(n, timeSteps)[i] == KeyStep(i / (|timeSteps| - 1) + 1, timeSteps[i % (|timeSteps| - 1)],
                                                     timeSteps[i % (|timeSteps| - 1) + 1])
      {
        KeyOrderAt(n, timeSteps, i);
      }
    }
  }

  /** The number of steps: `w` per scenario. */
  lemma {:induction false} KeyOrderLength(n: int, timeSteps: seq<real>)
    ensures (n <= 0 || |timeSteps| < 2) ==> KeyOrder(n, timeSteps) == []
    ensures n >= 0 && |timeSteps| >= 2 ==> |KeyOrder(n, timeSteps)| == n * (|timeSteps| - 1)
    decreases if n < 0 then 0 else n
  {
    if n > 0 {
      KeyOrderLength(n - 1, timeSteps);
      var w := |timeSteps| - 1;
      if w >= 1 {
        assert |KeyOrder(n, timeSteps)| == (n - 1) * w + w;
        assert (n - 1) * w + w == n * w;
      }
    }
  }

  /** Step `i` of the order. */
  lemma {:induction false} KeyOrderAt(n: int, timeSteps: seq<real>, i: int)
    requires |timeSteps| >= 2 && 0 <= i < |KeyOrder(n, timeSteps)|
    ensures KeyOrder(n, timeSteps)[i] == KeyStep(i / (|timeSteps| - 1) + 1, timeSteps[i % (|timeSteps| - 1)],
                                                 timeSteps[i % (|timeSteps| - 1) + 1])
    decreases if n < 0 then 0 else n
  {
    var w := |timeSteps| - 1;
    var prefix, block := KeyOrder(n - 1, timeSteps), Windows(n, timeSteps);
    assert KeyOrder(n, timeSteps) == prefix + block;
    if i < |prefix| {
      KeyOrderAt(n - 1, timeSteps, i);
    } else {
      KeyOrderLength(n - 1, timeSteps);
      DivModOfBlock(i, n - 1, w);
      assert KeyOrder(n, timeSteps)[i] == block[i - |prefix|];
    }
  }

  /** The cells the steps of scenarios `lo..=hi` may write: such a scenario, at a time that ends a window. */
  predicate MayWrite(f: Filtration, t: nat, s: nat, lo: int, hi: int, timeSteps: seq<real>)
    requires f.Valid() && t < |f.times| && s < |f.scenarios|
  {
    lo <= f.scenarios[s] <= hi && exists k :: 1 <= k < |timeSteps| && timeSteps[k] == f.times[t]
  }

  /** Everything `simulate` takes from outside the filtration. */
  datatype Randomness<!I> = Randomness(
    /** `incrementor.sample(scenario, t_start, t_end, rng)`. */
    sample: Sampler<I>,
    /** `rand::random_bool(0.5)` of the two-stage step `(scenario, t_start, t_end)`. */
    coin: (int, real, real) -> bool,
    /** `f64::sqrt`. */
    sqrt: real -> real)

  /** The Runge-Kutta scratchpad: a 1×1 table at time `0.0` and scenario `0` over the process names. */
  predicate IsScratchpad<I>(scratch: Filtration, processes: seq<Process<I>>) {
    scratch.Valid() && scratch.times == [0.0] && scratch.scenarios == [0] && scratch.processNames == Names(processes)
  }

  /** The scratchpad `simulate` allocates for the two-stage scheme, every cell `0.0`. */
  method NewScratchpad<I>(processes: seq<Process<I>>) returns (scratch: Filtration)
    ensures fresh(scratch) && fresh(scratch.raw) && IsScratchpad(scratch, processes)
    ensures forall p :: 0 <= p < |processes| ==> scratch.raw[0, 0, p] == 0.0
  {
    var zeros := new real[1, 1, |processes|]((t, s, p) => 0.0);
    scratch := new Filtration([0.0], [0], Names(processes), zeros, None);
  }

  /**
   * The window loop of `simulate` for one scenario: one step per window, in
   * order. A scheme name that is neither of the two panics at the first
   * step, before anything is written.
   */
  method RunScenario<I>(f: Filtration, processes: seq<Process<I>>, timeSteps: seq<real>, scenario: int,
                        rnd: Randomness<I>, scheme: string, scratch: Filtration?)
    returns (panicked: bool, ghost steps: seq<KeyStep>)
    requires f.Valid() && AllValid(processes)
    requires scheme == "runge-kutta" ==> scratch != null && IsScratchpad(scratch, processes) && scratch.raw != f.raw
    modifies f.raw, if scratch != null then {scratch.raw} else {}
    ensures panicked <==> scheme != "euler" && scheme != "runge-kutta" && |timeSteps| >= 2
    ensures scheme != "euler" && scheme != "runge-kutta" ==> unchanged(f.raw)
    ensures !panicked ==> steps == Windows(scenario, timeSteps)
    ensures forall t: nat, s: nat, p: nat :: f.InBounds(t, s, p) && !MayWrite(f, t, s, scenario, scenario, timeSteps) ==>
      f.raw[t, s, p] == old(f.raw[t, s, p])
  {
    ghost var unknown := scheme != "euler" && scheme != "runge-kutta";
    ghost var windows := Windows(scenario, timeSteps);
    steps := [];
    var k := 0;
    while k + 1 < |timeSteps|
      invariant k <= |windows| && steps == windows[..k]
      invariant unknown ==> k == 0 && unchanged(f.raw)
      invariant forall t: nat, s: nat, p: nat :: f.InBounds(t, s, p) && !MayWrite(f, t, s, scenario, scenario, timeSteps) ==>
        f.raw[t, s, p] == old(f.raw[t, s, p])
    {
      var tStart, tEnd := timeSteps[k], timeSteps[k + 1];
      if scheme == "euler" {
        EulerIteration(f, processes, tStart, tEnd, scenario, rnd.sample);
      } else if scheme == "runge-kutta" {
        var sk := if rnd.coin(scenario, tStart, tEnd) then 1.0 else -1.0;
        RungeKuttaIteration(f, processes, tStart, tEnd, scenario, rnd.sample, scratch, sk, rnd.sqrt);
      } else {
        return true, steps;
      }
      forall t: nat, s: nat, p: nat | f.InBounds(t, s, p) && !MayWrite(f, t, s, scenario, scenario, timeSteps)
        ensures f.raw[t, s, p] == old(f.raw[t, s, p])
      {
        assert !f.InRow(t, s, tEnd, scenario) by {
          assert timeSteps[k + 1] == tEnd;
        }
      }
      assert windows[..k + 1] == windows[..k] + [KeyStep(scenario, tStart, tEnd)];
      steps := steps + [KeyStep(scenario, tStart, tEnd)];
      k := k + 1;
    }
    assert windows[..|windows|] == windows;
    panicked := false;
  }

  /**
   * `simulate`: a scratchpad for `"runge-kutta"` only, then one step per
   * scenario `1..=n` and window of `time_steps`, scenario-major, each the
   * Euler or the Runge-Kutta step. A scheme name that is neither panics at
   * the first step, before anything is written. Only cells of a scenario in
   * `1..=n` at a time that ends a window can change.
   */
  method Simulate<I>(f: Filtration, processes: seq<Process<I>>, timeSteps: seq<real>, scenarios: int,
                     rnd: Randomness<I>, scheme: string)
    returns (panicked: bool, scratch: Filtration?, ghost visits: seq<KeyStep>)
    requires f.Valid() && AllValid(processes)
    modifies f.raw
    ensures panicked <==> scheme != "euler" && scheme != "runge-kutta" && scenarios >= 1 && |timeSteps| >= 2
    ensures scheme != "euler" && scheme != "runge-kutta" ==> unchanged(f.raw)
    ensures !panicked ==> visits == KeyOrder(scenarios, timeSteps)
    ensures forall t: nat, s: nat, p: nat :: f.InBounds(t, s, p) && !MayWrite(f, t, s, 1, scenarios, timeSteps) ==>
      f.raw[t, s, p] == old(f.raw[t, s, p])
    ensures scratch != null <==> scheme == "runge-kutta"
    ensures scratch != null ==> fresh(scratch) && fresh(scratch.raw) && IsScratchpad(scratch, processes)
  {
    scratch := null;
    if scheme == "runge-kutta" {
      scratch := NewScratchpad(processes);
    }
    ghost var unknown := scheme != "euler" && scheme != "runge-kutta";
    visits := [];
    var scenario := 1;
    while scenario <= scenarios
      invariant 1 <= scenario <= if scenarios >= 1 then scenarios + 1 else 1
      invariant visits == KeyOrder(scenario - 1, timeSteps)
      invariant unknown ==> (scenario == 1 || |timeSteps| < 2) && unchanged(f.raw)
      invariant scratch != null <==> scheme == "runge-kutta"
      invariant scratch != null ==> fresh(scratch) && fresh(scratch.raw) && IsScratchpad(scratch, processes)
      invariant forall t: nat, s: nat, p: nat :: f.InBounds(t, s, p) && !MayWrite(f, t, s, 1, scenarios, timeSteps) ==>
        f.raw[t, s, p] == old(f.raw[t, s, p])
      decreases scenarios - scenario
    {
      var stop, steps := RunScenario(f, processes, timeSteps, scenario, rnd, scheme, scratch);
      if stop {
        return true, scratch, visits;
      }
      visits := visits + steps;
      scenario := scenario + 1;
    }
    panicked := false;
  }
}
