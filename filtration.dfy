/**
 * The value table of `src/filtration.rs`: a 3-D array of values addressed
 * by (time, scenario, process), with index maps from time values, scenario
 * numbers and process names to positions along each axis.
 *
 * The index maps are built by collecting `(key, position)` pairs, so a key
 * listed twice resolves to its last position. Reads through unknown keys are
 * errors, writes through unknown keys are ignored.
 */
module FiltrationTable {
  import opened Wrappers
  import opened Maps
  import opened Arith

  /** The position of every entry. */
  function Positions(): nat -> nat {
    (i: nat) => i
  }

  /** `keys.iter().enumerate().map(|(i, k)| (k, i)).collect()`. */
  function IndexMap<K(==)>(keys: seq<K>): map<K, nat> {
    Insertions(keys, Positions())
  }

  /** Every listed key, and nothing else, resolves to the position of its last occurrence. */
  lemma IndexMapSpec<K>(keys: seq<K>)
    ensures IndexMap(keys).Keys == KeySet(keys)
    ensures forall k :: k in keys ==> IndexMap(keys)[k] == LastIndex(keys, k)
  {
    InsertionsSpec(keys, Positions());
  }

  /** No key is listed twice. */
  predicate Distinct<K(==)>(keys: seq<K>) {
    forall i, j :: 0 <= i < j < |keys| ==> keys[i] != keys[j]
  }

  /** Without repeated keys, the `i`-th key resolves to `i`. */
  lemma IndexMapDistinct<K>(keys: seq<K>, i: nat)
    requires Distinct(keys) && i < |keys|
    ensures keys[i] in IndexMap(keys) && IndexMap(keys)[keys[i]] == i
  {
    IndexMapSpec(keys);
    DistinctIsLast(keys, i);
    assert keys[i] in keys;
  }

  /** Without repeated keys, the `i`-th key is its own last occurrence. */
  lemma DistinctLastIndex<K>(keys: seq<K>, i: nat)
    ensures Distinct(keys) && i < |keys| ==> LastIndex(keys, keys[i]) == i
  {
    if Distinct(keys) && i < |keys| {
      DistinctIsLast(keys, i);
    }
  }

  /** Array positions `[t_idx, s_idx, p_idx]`. */
  datatype Cell = Cell(t: nat, s: nat, p: nat)

  /** One exported row: time, scenario, process name and value. */
  datatype Row = Row(time: real, scenario: int, processName: string, value: real)

  /** `values.get(name).copied().unwrap_or(0.0)`. */
  function InitialValue(values: map<string, real>, name: string): (r: real)
    ensures name in values ==> r == values[name]
    ensures name !in values ==> r == 0.0
  {
    if name in values then values[name] else 0.0
  }

  /** The position of row (t, s, p) in the export: time-major, then scenario, then process. */
  function RowIndex(t: nat, s: nat, p: nat, numScenarios: nat, numProcesses: nat): nat {
    (t * numScenarios + s) * numProcesses + p
  }

  /** (t, s, p) comes strictly before (t', s', p') in time-major order. */
  predicate Before(t: nat, s: nat, p: nat, t': nat, s': nat, p': nat) {
    t < t' || (t == t' && s < s') || (t == t' && s == s' && p < p')
  }

  /** The rows of a table of the given shape fill the export exactly, in time-major order. */
  lemma RowIndexSpec(t: nat, s: nat, p: nat, t': nat, s': nat, p': nat, numTimes: nat, numScenarios: nat, numProcesses: nat)
    requires t < numTimes && s < numScenarios && p < numProcesses
    requires s' < numScenarios && p' < numProcesses
    ensures RowIndex(t, s, p, numScenarios, numProcesses) < numTimes * numScenarios * numProcesses
    ensures Before(t, s, p, t', s', p') ==> RowIndex(t, s, p, numScenarios, numProcesses) < RowIndex(t', s', p', numScenarios, numProcesses)
  {
    var S, P := numScenarios, numProcesses;
    MulLess(t * S + s, numTimes * S, P) by {
      MulLess(t, numTimes, S);
    }
    assert numTimes * S * P == (numTimes * S) * P;
    if t < t' {
      MulLess(t * S + s, t' * S + s', P) by {
        MulLess(t, t', S);
      }
    } else if t == t' && s < s' {
      MulLess(t * S + s, t' * S + s', P);
    }
  }

  /** Row (t, s, p) lies in the block of time `t`, at offset `s * P + p`, and the blocks of earlier times come first. */
  lemma RowIndexBlock(t: nat, s: nat, p: nat, numScenarios: nat, numProcesses: nat)
    requires s < numScenarios && p < numProcesses
    ensures RowIndex(t, s, p, numScenarios, numProcesses) == t * (numScenarios * numProcesses) + (s * numProcesses + p)
    ensures s * numProcesses + p < numScenarios * numProcesses
  {
    var S, P := numScenarios, numProcesses;
    assert (t * S + s) * P == t * (S * P) + s * P;
    MulLess(s, S, P);
  }

  /** Where row (t', s, p) sits relative to the block of time `t - 1`. */
  lemma RowIndexAgainstBlock(t': nat, s: nat, p: nat, t: nat, numScenarios: nat, numProcesses: nat)
    requires t' < t && s < numScenarios && p < numProcesses
    ensures t' == t - 1 ==>
      RowIndex(t', s, p, numScenarios, numProcesses) == (t - 1) * (numScenarios * numProcesses) + (s * numProcesses + p)
    ensures t' < t - 1 ==> RowIndex(t', s, p, numScenarios, numProcesses) < (t - 1) * (numScenarios * numProcesses)
  {
    RowIndexBlock(t', s, p, numScenarios, numProcesses);
    if t' < t - 1 {
      MulLess(t', t - 1, numScenarios * numProcesses);
    }
  }

  /** Distinct cells of the table land on distinct rows. */
  lemma RowIndexInjective(t: nat, s: nat, p: nat, t': nat, s': nat, p': nat, numTimes: nat, numScenarios: nat, numProcesses: nat)
    requires t < numTimes && s < numScenarios && p < numProcesses
    requires t' < numTimes && s' < numScenarios && p' < numProcesses
    requires RowIndex(t, s, p, numScenarios, numProcesses) == RowIndex(t', s', p', numScenarios, numProcesses)
    ensures t == t' && s == s' && p == p'
  {
    if Before(t, s, p, t', s', p') {
      RowIndexSpec(t, s, p, t', s', p', numTimes, numScenarios, numProcesses);
    } else if Before(t', s', p', t, s, p) {
      RowIndexSpec(t', s', p', t, s, p, numTimes, numScenarios, numProcesses);
    }
  }

  class Filtration {
    const times: seq<real>
    const scenarios: seq<int>
    const processNames: seq<string>
    /** `raw_values`, indexed `[t_idx, s_idx, p_idx]`. */
    const raw: array3<real>
    const timeIdx: map<real, nat>
    const scenarioIdx: map<int, nat>
    const processIdx: map<string, nat>

    /** The table has one cell per key triple, and the index maps are those of the key lists. */
    predicate Valid() {
      raw.Length0 == |times| && raw.Length1 == |scenarios| && raw.Length2 == |processNames|
      && timeIdx == IndexMap(times) && scenarioIdx == IndexMap(scenarios) && processIdx == IndexMap(processNames)
    }

    predicate InBounds(t: nat, s: nat, p: nat) {
      t < raw.Length0 && s < raw.Length1 && p < raw.Length2
    }

    /**
     * `Filtration::new`: the index maps of the key lists; when initial
     * values are given, the first time slice is filled from them.
     */
    constructor (times: seq<real>, scenarios: seq<int>, processNames: seq<string>, raw: array3<real>,
                 initialValues: Option<map<string, real>>)
      requires raw.Length0 == |times| && raw.Length1 == |scenarios| && raw.Length2 == |processNames|
      requires initialValues.Some? ==> |times| >= 1
      modifies raw
      ensures Valid()
      ensures this.times == times && this.scenarios == scenarios && this.processNames == processNames && this.raw == raw
      ensures initialValues.None? ==> forall t: nat, s: nat, p: nat :: InBounds(t, s, p) ==> raw[t, s, p] == old(raw[t, s, p])
      ensures initialValues.Some? ==> forall t: nat, s: nat, p: nat :: InBounds(t, s, p) ==>
        raw[t, s, p] == if InitialCell(t, s, p) then InitialValue(initialValues.value, processNames[p]) else old(raw[t, s, p])
    {
      this.times := times;
      this.scenarios := scenarios;
      this.processNames := processNames;
      this.raw := raw;
      timeIdx := IndexMap(times);
      scenarioIdx := IndexMap(scenarios);
      processIdx := IndexMap(processNames);
      new;
      if initialValues.Some? {
        SetInitialValues(initialValues.value);
      }
    }

    /** `get_process_index`: the position a process name resolves to, if it is listed. */
    function GetProcessIndex(name: string): (r: Option<nat>)
      requires Valid()
      ensures r.Some? <==> name in processNames
      ensures r.Some? ==> r.value == LastIndex(processNames, name)
    {
      IndexMapSpec(processNames);
      if name in processIdx then Some(processIdx[name]) else None
    }

    /**
     * `get_raw`: the fast path past the index maps. With every time and
     * scenario listed once it reads what `value_by_index` reads for the keys
     * at those positions.
     */
    function GetRaw(t: nat, s: nat, p: nat): (r: real)
      requires InBounds(t, s, p)
      reads raw
      ensures Valid() && Distinct(times) && Distinct(scenarios) ==> ValueByIndex(times[t], scenarios[s], p) == Ok(r)
    {
      DistinctLastIndex(times, t);
      DistinctLastIndex(scenarios, s);
      raw[t, s, p]
    }

    /** `set_raw`: writes the one cell. */
    method SetRaw(t: nat, s: nat, p: nat, v: real)
      requires InBounds(t, s, p)
      modifies raw
      ensures GetRaw(t, s, p) == v
      ensures forall t': nat, s': nat, p': nat :: InBounds(t', s', p') && Cell(t', s', p') != Cell(t, s, p) ==> raw[t', s', p'] == old(raw[t', s', p'])
    {
      raw[t, s, p] := v;
    }

    /** `indices`: the cell of a (time, scenario, process name) triple, if all three are listed. */
    function Indices(time: real, scenario: int, name: string): (r: Option<Cell>)
      requires Valid()
      ensures r.Some? <==> time in times && scenario in scenarios && name in processNames
      ensures r.Some? ==> r.value == Cell(LastIndex(times, time), LastIndex(scenarios, scenario), LastIndex(processNames, name))
      ensures r.Some? ==> InBounds(r.value.t, r.value.s, r.value.p)
    {
      IndexMapSpec(times);
      IndexMapSpec(scenarios);
      IndexMapSpec(processNames);
      if time in timeIdx && scenario in scenarioIdx && name in processIdx then
        Some(Cell(timeIdx[time], scenarioIdx[scenario], processIdx[name]))
      else
        None
    }

    /** `value`: the value at a listed triple; an error naming the process otherwise. */
    function Value(time: real, scenario: int, name: string): (r: Result<real, string>)
      requires Valid()
      reads raw
      ensures r.Err? <==> time !in times || scenario !in scenarios || name !in processNames
      ensures r.Err? ==> r.error == "No value found for process: " + name
      ensures r.Ok? ==> r.value == raw[LastIndex(times, time), LastIndex(scenarios, scenario), LastIndex(processNames, name)]
    {
      match Indices(time, scenario, name)
      case Some(c) => Ok(raw[c.t, c.s, c.p])
      case None => Err("No value found for process: " + name)
    }

    /** `value_by_index`: the process is given by position; an unknown time or scenario is an error. */
    function ValueByIndex(time: real, scenario: int, p: nat): (r: Result<real, string>)
      requires Valid() && (time in times && scenario in scenarios ==> p < |processNames|)
      reads raw
      ensures time !in times ==> r == Err("Time not found")
      ensures time in times && scenario !in scenarios ==> r == Err("Scenario not found")
      ensures time in times && scenario in scenarios ==> r == Ok(raw[LastIndex(times, time), LastIndex(scenarios, scenario), p])
    {
      IndexMapSpec(times);
      IndexMapSpec(scenarios);
      if time !in timeIdx then Err("Time not found")
      else if scenario !in scenarioIdx then Err("Scenario not found")
      else Ok(raw[timeIdx[time], scenarioIdx[scenario], p])
    }

    /** `value(time, scenario, name).unwrap_or(0.0)`. */
    function ValueOr(time: real, scenario: int, name: string): (r: real)
      requires Valid()
      reads raw
      ensures time in times && scenario in scenarios && name in processNames ==>
        r == raw[LastIndex(times, time), LastIndex(scenarios, scenario), LastIndex(processNames, name)]
      ensures !(time in times && scenario in scenarios && name in processNames) ==> r == 0.0
    {
      match Value(time, scenario, name)
      case Ok(v) => v
      case Err(_) => 0.0
    }

    /**
     * What a coefficient closure can look up at (time, scenario): the value
     * of every process name that `value` finds there.
     */
    function Snapshot(time: real, scenario: int): (m: map<string, real>)
      requires Valid()
      reads raw
      ensures forall n :: n in m <==> Value(time, scenario, n).Ok?
      ensures forall n :: n in m ==> m[n] == Value(time, scenario, n).value
    {
      map n | n in processNames && Value(time, scenario, n).Ok? :: Value(time, scenario, n).value
    }

    /**
     * While the time slice `time` resolves to keeps its values, so do the
     * lookups at that time: the snapshot and every `value`.
     */
    twostate lemma SliceUnchanged(time: real)
      requires Valid()
      requires time in times ==> forall s: nat, p: nat :: s < raw.Length1 && p < raw.Length2 ==>
        raw[LastIndex(times, time), s, p] == old(raw[LastIndex(times, time), s, p])
      ensures forall scenario: int :: Snapshot(time, scenario) == old(Snapshot(time, scenario))
      ensures forall scenario: int, name: string :: ValueOr(time, scenario, name) == old(ValueOr(time, scenario, name))
    {
      forall scenario: int
        ensures Snapshot(time, scenario) == old(Snapshot(time, scenario))
      {
        var now, before := Snapshot(time, scenario), old(Snapshot(time, scenario));
        assert forall n :: n in now <==> n in before;
        assert forall n :: n in now ==> now[n] == before[n];
      }
    }

    /** Cell row (t, s) is the one `set_value(time, scenario, …)` writes to. */
    predicate InRow(t: nat, s: nat, time: real, scenario: int)
      requires Valid()
    {
      time in times && scenario in scenarios && t == LastIndex(times, time) && s == LastIndex(scenarios, scenario)
    }

    /**
     * The cells that `set_value(time, scenario, name, updates[name])` for the
     * names of `updates` write: the process positions those names resolve to.
     */
    predicate Written(t: nat, s: nat, p: nat, time: real, scenario: int, updates: map<string, real>)
      requires Valid()
    {
      InRow(t, s, time, scenario) && p < |processNames| && IsLast(processNames, p) && processNames[p] in updates
    }

    /**
     * One more `set_value(time, scenario, name, v)` on a cell holding the
     * updates written so far over `before` leaves it holding the updates
     * with `name` bound to `v` over `before`.
     */
    lemma WriteStep(t: nat, s: nat, p: nat, time: real, scenario: int, updates: map<string, real>,
                    name: string, v: real, before: real, mid: real, after: real)
      requires Valid() && InBounds(t, s, p)
      requires mid == if Written(t, s, p, time, scenario, updates) then updates[processNames[p]] else before
      requires after == if Indices(time, scenario, name) == Some(Cell(t, s, p)) then v else mid
      ensures after == if Written(t, s, p, time, scenario, updates[name := v]) then updates[name := v][processNames[p]] else before
    {
      if InRow(t, s, time, scenario) && IsLast(processNames, p) && processNames[p] == name {
        LastIndexOf(processNames, p);
      }
    }

    /**
     * `set_value`: writes the cell of a listed triple and nothing else; an
     * unlisted key leaves the table as it was.
     */
    method SetValue(time: real, scenario: int, name: string, v: real)
      requires Valid()
      modifies raw
      ensures forall t: nat, s: nat, p: nat :: InBounds(t, s, p) ==>
        raw[t, s, p] == if Indices(time, scenario, name) == Some(Cell(t, s, p)) then v else old(raw[t, s, p])
      ensures Indices(time, scenario, name).Some? ==> Value(time, scenario, name) == Ok(v)
    {
      var idx := Indices(time, scenario, name);
      if idx.Some? {
        raw[idx.value.t, idx.value.s, idx.value.p] := v;
      }
    }

    /**
     * The cells `set_initial_values` writes: the slice `times[0]` resolves
     * to, at every scenario and process position that a key resolves to.
     */
    predicate InitialCell(t: nat, s: nat, p: nat)
      requires |times| >= 1
    {
      t == LastIndex(times, times[0])
      && s < |scenarios| && IsLast(scenarios, s)
      && p < |processNames| && IsLast(processNames, p)
    }

    /**
     * `set_initial_values`: `set_value(times[0], s, name, …)` for every
     * scenario and process name, with 0.0 for a name the map lacks.
     */
    method SetInitialValues(values: map<string, real>)
      requires Valid() && |times| >= 1
      modifies raw
      ensures forall t: nat, s: nat, p: nat :: InBounds(t, s, p) ==>
        raw[t, s, p] == if InitialCell(t, s, p) then InitialValue(values, processNames[p]) else old(raw[t, s, p])
    {
      ghost var t0 := LastIndex(times, times[0]);
      ghost var doneS: set<nat> := {};
      for i := 0 to |scenarios|
        invariant doneS == set j | 0 <= j < i :: LastIndex(scenarios, scenarios[j])
        invariant forall t: nat, s: nat, p: nat :: InBounds(t, s, p) ==>
          raw[t, s, p] == if t == t0 && s in doneS && IsLast(processNames, p) then InitialValue(values, processNames[p]) else old(raw[t, s, p])
      {
        SetScenarioInitialValues(i, values);
        doneS := doneS + {LastIndex(scenarios, scenarios[i])};
      }
      LastPositions(scenarios);
    }

    /** One pass of the outer loop of `set_initial_values`: every process name of `scenarios[i]` at the first time. */
    method SetScenarioInitialValues(i: nat, values: map<string, real>)
      requires Valid() && |times| >= 1 && i < |scenarios|
      modifies raw
      ensures forall t: nat, s: nat, p: nat :: InBounds(t, s, p) ==>
        raw[t, s, p] == if t == LastIndex(times, times[0]) && s == LastIndex(scenarios, scenarios[i]) && IsLast(processNames, p)
          then InitialValue(values, processNames[p]) else old(raw[t, s, p])
    {
      var initialTime, scenario := times[0], scenarios[i];
      ghost var t0, s0 := LastIndex(times, initialTime), LastIndex(scenarios, scenario);
      ghost var doneP: set<nat> := {};
      for k := 0 to |processNames|
        invariant doneP == set j | 0 <= j < k :: LastIndex(processNames, processNames[j])
        invariant forall t: nat, s: nat, p: nat :: InBounds(t, s, p) ==>
          raw[t, s, p] == if t == t0 && s == s0 && p in doneP then InitialValue(values, processNames[p]) else old(raw[t, s, p])
      {
        var name := processNames[k];
        var v := if name in values then values[name] else 0.0;
        SetValue(initialTime, scenario, name, v);
        doneP := doneP + {LastIndex(processNames, name)};
      }
      LastPositions(processNames);
    }

    /** With every key listed once, the cells `set_initial_values` writes are exactly the first time slice. */
    lemma InitialCellsDistinct()
      requires Valid() && |times| >= 1
      requires Distinct(times) && Distinct(scenarios) && Distinct(processNames)
      ensures forall t: nat, s: nat, p: nat :: InBounds(t, s, p) ==> (InitialCell(t, s, p) <==> t == 0)
    {
      DistinctIsLast(times, 0);
    }

    /** The row of one cell. */
    function RowOf(t: nat, s: nat, p: nat): Row
      requires Valid() && InBounds(t, s, p)
      reads raw
    {
      Row(times[t], scenarios[s], processNames[p], raw[t, s, p])
    }

    /** The rows of time `t` and scenario `s`, one per process. */
    ghost function Block(t: nat, s: nat): seq<Row>
      requires Valid() && t < |times| && s < |scenarios|
      reads raw
    {
      seq(|processNames|, p requires 0 <= p < |processNames| reads raw => RowOf(t, s, p))
    }

    /** The rows of time `t` for the scenarios before `s`. */
    ghost function TimeRows(t: nat, s: nat): seq<Row>
      requires Valid() && t < |times| && s <= |scenarios|
      reads raw
      decreases s
    {
      if s == 0 then [] else TimeRows(t, s - 1) + Block(t, s - 1)
    }

    /** The rows of the times before `t`. */
    ghost function RowsBefore(t: nat): seq<Row>
      requires Valid() && t <= |times|
      reads raw
      decreases t
    {
      if t == 0 then [] else RowsBefore(t - 1) + TimeRows(t - 1, |scenarios|)
    }

    /** The export: time-major, then scenario, then process. */
    ghost function ExportRows(): seq<Row>
      requires Valid()
      reads raw
    {
      RowsBefore(|times|)
    }

    /** The rows of one time hold one block of `|processNames|` rows per scenario. */
    lemma {:induction false} TimeRowsLength(t: nat, s: nat)
      requires Valid() && t < |times| && s <= |scenarios|
      ensures |TimeRows(t, s)| == s * |processNames|
      decreases s
    {
      if s > 0 {
        TimeRowsLength(t, s - 1);
        assert |TimeRows(t, s)| == (s - 1) * |processNames| + |processNames|;
      }
    }

    /** Within the rows of time `t`, the row of (t, s', p) sits at `s' * |processNames| + p`. */
    lemma {:induction false} TimeRowsAt(t: nat, s: nat, s': nat, p: nat)
      requires Valid() && t < |times| && s <= |scenarios| && s' < s && p < |processNames|
      ensures s' * |processNames| + p < |TimeRows(t, s)|
      ensures TimeRows(t, s)[s' * |processNames| + p] == RowOf(t, s', p)
      decreases s
    {
      var P := |processNames|;
      var prefix := TimeRows(t, s - 1);
      TimeRowsLength(t, s - 1);
      assert TimeRows(t, s) == prefix + Block(t, s - 1);
      if s' < s - 1 {
        TimeRowsAt(t, s - 1, s', p);
      } else {
        assert s' * P + p == |prefix| + p;
      }
    }

    /** The rows before time `t` hold one block of `|scenarios| * |processNames|` rows per time. */
    lemma {:induction false} RowsBeforeLength(t: nat)
      requires Valid() && t <= |times|
      ensures |RowsBefore(t)| == t * (|scenarios| * |processNames|)
      decreases t
    {
      if t > 0 {
        RowsBeforeLength(t - 1);
        TimeRowsLength(t - 1, |scenarios|);
        assert |RowsBefore(t)| == (t - 1) * (|scenarios| * |processNames|) + |scenarios| * |processNames|;
      }
    }

    /** Before time `t`, the rows of an earlier time `t'` fill the block of `B` rows from `t' * B` on. */
    lemma {:induction false} RowsBeforeAt(t: nat, t': nat, k: nat, B: nat, i: nat)
      requires Valid() && t <= |times| && t' < t && B == |scenarios| * |processNames| && k < B && i == t' * B + k
      ensures k < |TimeRows(t', |scenarios|)| && i < |RowsBefore(t)|
      ensures RowsBefore(t)[i] == TimeRows(t', |scenarios|)[k]
      decreases t
    {
      var prefix := RowsBefore(t - 1);
      assert RowsBefore(t) == prefix + TimeRows(t - 1, |scenarios|);
      RowsBeforeLength(t - 1);
      TimeRowsLength(t - 1, |scenarios|);
      if t' < t - 1 {
        MulLess(t', t - 1, B);
        RowsBeforeAt(t - 1, t', k, B, i);
      }
    }

    /** The export has one row per cell, and row `RowIndex(t, s, p)` is the row of cell (t, s, p). */
    lemma ExportRowsSpec()
      requires Valid()
      ensures |ExportRows()| == |times| * |scenarios| * |processNames|
      ensures forall t: nat, s: nat, p: nat :: InBounds(t, s, p) ==>
        RowIndex(t, s, p, |scenarios|, |processNames|) < |ExportRows()|
        && ExportRows()[RowIndex(t, s, p, |scenarios|, |processNames|)] == RowOf(t, s, p)
    {
      RowsBeforeLength(|times|);
      assert |times| * (|scenarios| * |processNames|) == |times| * |scenarios| * |processNames|;
      forall t: nat, s: nat, p: nat | InBounds(t, s, p)
        ensures RowIndex(t, s, p, |scenarios|, |processNames|) < |ExportRows()|
          && ExportRows()[RowIndex(t, s, p, |scenarios|, |processNames|)] == RowOf(t, s, p)
      {
        ExportRowAt(t, s, p);
      }
    }

    lemma ExportRowAt(t: nat, s: nat, p: nat)
      requires Valid() && InBounds(t, s, p)
      ensures RowIndex(t, s, p, |scenarios|, |processNames|) < |ExportRows()|
      ensures ExportRows()[RowIndex(t, s, p, |scenarios|, |processNames|)] == RowOf(t, s, p)
    {
      var S, P := |scenarios|, |processNames|;
      RowIndexBlock(t, s, p, S, P);
      RowsBeforeAt(|times|, t, s * P + p, S * P, RowIndex(t, s, p, S, P));
      TimeRowsAt(t, S, s, p);
    }

    /**
     * The rows of `to_dataframe`: one per cell, time-major, then scenario,
     * then process.
     */
    method ToRows() returns (rows: seq<Row>)
      requires Valid()
      ensures rows == ExportRows()
    {
      rows := [];
      for t := 0 to |times|
        invariant rows == RowsBefore(t)
      {
        for s := 0 to |scenarios|
          invariant rows == RowsBefore(t) + TimeRows(t, s)
        {
          for p := 0 to |processNames|
            invariant rows == RowsBefore(t) + TimeRows(t, s) + Block(t, s)[..p]
          {
            assert Block(t, s)[..p + 1] == Block(t, s)[..p] + [RowOf(t, s, p)];
            rows := rows + [RowOf(t, s, p)];
          }
          assert Block(t, s)[..|processNames|] == Block(t, s);
        }
      }
    }
  }
}
