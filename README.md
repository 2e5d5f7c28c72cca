# sde-sim-rs core, modelled in Dafny

sde-sim-rs simulates systems of stochastic differential equations. Each
process is written as `dX = (expr)*dt + (expr)*dW1 + (expr)*dJ1(0.3)`. The
simulator builds a table of values addressed by time, scenario and process,
and steps it forward with the Euler scheme or a two-stage Runge-Kutta scheme.
It draws increments from pseudo-random or Sobol sources.

The repository holds two generations of the code, and they do not link
together:

- **Key-based.** `src/process/util.rs`, `src/filtration.rs`,
  `src/process/increment.rs`, `src/rng.rs`, `src/sim.rs`,
  `src/process/levy.rs` and `src/process/ito.rs`. Times are `f64` keys and
  increments are looked up by name.
- **Index-based.** `src/proc/increment.rs`, `src/rng/pseudo.rs`,
  `src/rng/sobol.rs`, `src/sim/mod.rs`, `src/sim/euler.rs` and
  `src/sim/runge_kutta.rs`. Everything is addressed by time index, scenario
  index and increment index.

Each file is modelled against its own signatures. The modules are:

| module | file | models |
|---|---|---|
| `Wrappers` | wrappers.dfy | `Option` and `Result` |
| `Maps` | maps.dfy | maps built by inserting keys in order (`collect`, `HashMap::insert` loops) |
| `Levy`, `Ito` | levy.dfy, ito.dfy | the process constructors and accessors |
| `EquationParser` | equation_parser.dfy | `parse_equations`, `parse_equation` and `parse_single_term` |
| `FiltrationTable` | filtration.dfy | the key-based `Filtration` class over an `array3` |
| `Draws` | draws.dfy | the `Rng` trait seen from an incrementor: a logged, abstract source |
| `ProcessIncrement` | process_increment.dfy | key-based increments with their capacity-1 LRU caches |
| `ProcIncrement` | proc_increment.dfy | index-based increments with their last-value registers, and the truncated inverse Poisson search |
| `KeyedRng` | rng.dfy | key-based `PseudoRng` and `SobolRng` with their batch caches |
| `IndexedRng` | rng_indexed.dfy | index-based `PseudoRng`, `SobolRng` and the XOR scrambler |
| `Schemes` | schemes.dfy | the Euler and Runge-Kutta update sums, and the support and averaged rows |
| `Arith` | arith.dfy | the products and quotients of row-major index arithmetic |
| `KeyedSim` | sim_keyed.dfy | `simulate`, `euler_iteration` and `runge_kutta_iteration_reused` of `src/sim.rs` |
| `IndexedSim` | sim_indexed.dfy | `simulate`, `euler_iteration` and `runge_kutta_iteration` of `src/sim/`, over an index-addressed filtration |

Arithmetic is over `real`. The following foreign numerics are parameters of
the model:

- the square root;
- the exponential;
- the inverse normal distribution function;
- the Poisson distribution function;
- `f64` parsing;
- the expression library's parse.

Random generators are abstract streams:

- a function from position to value;
- or a sequence of points.

A coefficient closure is a function of what it can read: the values its
filtration returns at the time and scenario it is called with.

A panic on a path the source handles becomes an error value:

- `Option` or `Result` for `unwrap`;
- an `Outcome` for the `panic!` of `simulate`.

An index past the end of an array or vector, and a `usize` subtraction
below zero, are not checked by the source's own code. The model turns each
of them into a precondition, and "## Left out" names every member where it
does so. Where it matters, the model follows a build with overflow checks on
(the debug profile), in which `0usize - 1` panics instead of wrapping.

## Model

| member | source | states |
|---|---|---|
| Maps.LastIndex | src/filtration.rs:25-31 | the position returned holds the key, and no later position repeats it |
| Maps.LastIndexOf | src/filtration.rs:25-31 | a position that no later entry repeats is the position its key resolves to |
| Maps.DistinctIsLast | src/filtration.rs:25-31 | without repeated keys, the i-th key resolves to i |
| Maps.InsertionsSnoc | src/rng.rs:46-49 | one more insertion in the loop extends the map built so far by that key |
| Maps.InsertionsSpec | src/rng.rs:45-49 | the map built by inserting in order has exactly the listed keys, and each key is bound to the value of its last occurrence |
| Maps.InsertionsAll | src/rng.rs:45-49 | a property of every inserted value holds of every value in the map |
| Maps.LastPositions | src/filtration.rs:25-31 | the positions that keys resolve to are exactly the last occurrences |
| Levy.New | src/process/levy.rs:27-40 | it fails exactly when the coefficient and incrementor lists differ in length; on success it stores the name and both lists unchanged and is Valid |
| Ito.New | src/process/ito.rs:26-41 | it always succeeds, with two coefficients against `[dt, dW]`; `drift()` is the first coefficient and `diffusion()` the second |
| Ito.ItoProcess.Drift | src/process/ito.rs:43-45 | the first coefficient (no contract of its own; `Ito.New` states it) |
| Ito.ItoProcess.Diffusion | src/process/ito.rs:47-49 | the second coefficient (no contract of its own; `Ito.New` states it) |
| EquationParser.TrimStart | src/process/util.rs:97 | the result is no longer than the input |
| EquationParser.TrimStartSpec | src/process/util.rs:97 | exactly the leading whitespace is removed, and what remains is a suffix of the input that starts with a non-whitespace character |
| EquationParser.TrimEnd | src/process/util.rs:97 | the result is no longer than the input |
| EquationParser.TrimEndSpec | src/process/util.rs:97 | exactly the trailing whitespace is removed, and what remains is a prefix of the input |
| EquationParser.BlankIffAllWhitespace | src/process/util.rs:46 | a term counts as blank (its trim is empty) exactly when all its characters are whitespace |
| EquationParser.NameRun | src/process/util.rs:12 | the run of name characters stays inside the text |
| EquationParser.NameRunSpec | src/process/util.rs:12 | the run is the longest run of `[a-zA-Z0-9_]` from its start |
| EquationParser.LeadingSpace | src/process/util.rs:12 | the count of skipped characters lies within the text |
| EquationParser.LeadingSpaceSpec | src/process/util.rs:12 | the skipped characters are whitespace, and the next one is not |
| EquationParser.ProcessNameSpec | src/process/util.rs:12-16 | a name exists exactly when a `d` and a name character follow the leading whitespace; the name is then the longest run of name characters after the `d` |
| EquationParser.ProcessName | src/process/util.rs:12-16 | a name, when there is one, is non-empty and made only of `[a-zA-Z0-9_]` characters |
| EquationParser.IndexOf | src/process/util.rs:24-28 | the index lies within the text or is its length |
| EquationParser.IndexOfSpec | src/process/util.rs:24-28 | the index is that of the first occurrence of the character |
| EquationParser.RhsSpec | src/process/util.rs:24-28 | there is a right-hand side exactly when the equation holds an `=`, and the right-hand side holds no `=` |
| EquationParser.Rhs | src/process/util.rs:24-28 | there is a right-hand side exactly when the equation holds an `=` |
| EquationParser.RhsIsSecondField | src/process/util.rs:24-28 | the right-hand side is the trimmed text between the first `=` and the next one, or the end of the equation |
| EquationParser.DepthAppend | src/process/util.rs:34-43 | the parenthesis depth of a concatenation is the sum of the depths |
| EquationParser.Pieces | src/process/util.rs:31-59 | splitting always yields at least one piece |
| EquationParser.JoinPieces | src/process/util.rs:31-59 | joining the pieces with `+` gives back the right-hand side, so nothing is lost |
| EquationParser.PiecesCount | src/process/util.rs:44-56 | there is one more piece than there are `+` characters read at depth 0 |
| EquationParser.NestedPlusStays | src/process/util.rs:44 | without a `+` at depth 0, the whole right-hand side is one term, including any `+` inside parentheses |
| EquationParser.CoeffScan | src/process/util.rs:100-122 | the scan's start is within the term; its end is 0 or a position it reached |
| EquationParser.CoeffScanSound | src/process/util.rs:100-122 | when a group closes, the coefficient sits between a `(` and the `)` that brings the depth back to 0, and is itself balanced |
| EquationParser.CoeffScanNoParen | src/process/util.rs:100-122 | with no `(` left to read, the scan ends at (0, 0) |
| EquationParser.CoeffScanFromStart | src/process/util.rs:100-125 | from the start of a term the coefficient is delimited as above; a term without `(` gives (0, 0); a start past the end only happens when no group closed (the slice panic) |
| EquationParser.IncSearch | src/process/util.rs:128-131 | a start that is found is a `d` followed by `t`, `W` or `J` |
| EquationParser.IncSearchSpec | src/process/util.rs:128-131 | the start found is the leftmost one before any line feed; when none is found, every start lies after a line feed |
| EquationParser.ParamSpec | src/process/util.rs:128-134 | a parameter is the non-empty text between the `(` after the name and the first `)` after it; without both there is none |
| EquationParser.Param | src/process/util.rs:128-134 | a parameter, when there is one, is non-empty and holds no `)`, as the `[^)]+` group |
| EquationParser.FindIncrementorSpec | src/process/util.rs:128-134 | the name found is `d`, then `t`, `W` or `J`, then name characters; nothing is found exactly when the search finds no start |
| EquationParser.FindIncrementor | src/process/util.rs:128-134 | a matched name starts with `d` and one of `t`, `W`, `J`; its parameter, when there is one, is non-empty and holds no `)` |
| EquationParser.ClassifySpec | src/process/util.rs:182-201 | `dt` is the time increment; other `dW` names are Wiener increments; `dJ` names are jumps that need a parameter parsing as a float, or fail; anything else is unsupported |
| EquationParser.Classify | src/process/util.rs:182-201 | an accepted name gives the time increment exactly when it is `dt`; Wiener and jump increments keep the term's name; a jump's rate is the parsed parameter; the only failures are a jump without a numeric rate and an unsupported name |
| EquationParser.ScanCoefficient | src/process/util.rs:100-122 | the character loop ends with the bounds of the scan function |
| EquationParser.ParseSingleTerm | src/process/util.rs:89-206 | the method's result is what the term function gives for a non-blank term |
| EquationParser.SingleTerm | src/process/util.rs:89-206 | an accepted term's coefficient is text the expression library parses |
| EquationParser.ParsePiecesKeepsError | src/process/util.rs:47-53 | once a term fails, the whole right-hand side fails with that error |
| EquationParser.ParsePiecesOk | src/process/util.rs:46-70 | on success, blank pieces vanish and every other piece gives one term, in order |
| EquationParser.ParsePieces | src/process/util.rs:31-70 | on success there are at most as many terms as pieces, and every coefficient parses |
| EquationParser.SplitFromPieces | src/process/util.rs:31-59 | the splitting loop, from any position with its state, produces the pieces |
| EquationParser.SplitFromExtends | src/process/util.rs:31-59 | the loop only appends to the terms already closed |
| EquationParser.SplitCloses | src/process/util.rs:44-55 | a `+` at depth 0 closes the current term; a blank one adds nothing, and a non-blank one adds its term or its error |
| EquationParser.ParseTerms | src/process/util.rs:31-70 | the splitting loop with the last-term step parses exactly the non-blank pieces in order |
| EquationParser.AssembleShape | src/process/util.rs:72 | `LevyProcess::new` never refuses parsed terms: one coefficient and one incrementor per term, in order, under the equation's name |
| EquationParser.EquationShape | src/process/util.rs:10-87 | an equation fails exactly on a missing name, a missing `=` or a failing term, and never on a length mismatch; on success it carries one coefficient and one incrementor per non-blank term, in order |
| EquationParser.ParsePiecesNotLength | src/process/util.rs:178-203 | no right-hand side fails with a length mismatch |
| EquationParser.SingleTermNotLength | src/process/util.rs:89-206 | a single term never fails with a length mismatch |
| EquationParser.ParseEquation | src/process/util.rs:10-87 | the method's result is the equation function's |
| EquationParser.Equation | src/process/util.rs:10-87 | a parsed process is Valid, carries the equation's name, comes from an equation holding an `=`, and every coefficient of it parses |
| EquationParser.ParseAllSpec | src/process/util.rs:245-250 | success gives one process per equation, in order; failure is the error of the first equation that fails |
| EquationParser.ParseAll | src/process/util.rs:245-250 | on success, one process per equation |
| EquationParser.ParseAllPrefixError | src/process/util.rs:246-248 | an error in a prefix of the list is the error of the whole list |
| EquationParser.EquationsSpec | src/process/util.rs:241-251 | an empty list is refused; otherwise the list result is as in `ParseAllSpec` |
| EquationParser.Equations | src/process/util.rs:241-251 | an empty list gives the no-equations error; on success, one process per equation |
| EquationParser.ParseAllStep | src/process/util.rs:246-248 | one more equation either extends the list of processes or ends the loop with its error |
| EquationParser.ParseEquations | src/process/util.rs:241-251 | the loop's result is the list function's |
| FiltrationTable.IndexMapSpec | src/filtration.rs:25-31 | the index map has exactly the listed keys, and each maps to its last position |
| FiltrationTable.IndexMapDistinct | src/filtration.rs:25-31 | without repeated keys, `keys[i]` maps to `i` |
| FiltrationTable.InitialValue | src/filtration.rs:128 | the value for a listed name, and 0.0 for a missing one |
| FiltrationTable.RowIndexSpec | src/filtration.rs:141-148 | every cell's row lies within `|times|·|scenarios|·|processes|`, and time-major order is row order |
| FiltrationTable.RowIndexBlock | src/filtration.rs:141-148 | the row of (t, s, p) is `t·(S·P) + s·P + p`, inside the block of time t |
| FiltrationTable.RowIndexAgainstBlock | src/filtration.rs:141-148 | rows of earlier times come before the block of time t - 1 |
| FiltrationTable.RowIndexInjective | src/filtration.rs:141-148 | distinct cells land on distinct rows |
| FiltrationTable.Filtration.constructor | src/filtration.rs:17-48 | it stores the key lists and their index maps; without initial values the table is unchanged; with them, the cells `set_initial_values` writes hold the initial value and the rest are unchanged |
| FiltrationTable.Filtration.GetProcessIndex | src/filtration.rs:51-53 | it finds exactly the listed names, at their last position |
| FiltrationTable.Filtration.GetRaw | src/filtration.rs:55-59 | with every time and scenario listed once, the cell it reads is what `value_by_index` returns for the keys at those positions |
| FiltrationTable.Filtration.SetRaw | src/filtration.rs:63-65 | `get_raw` at the cell returns the value written, and every other cell is unchanged |
| FiltrationTable.Filtration.Indices | src/filtration.rs:84-94 | it finds a cell exactly when all three keys are listed; the cell is their last positions and lies in the table |
| FiltrationTable.Filtration.Value | src/filtration.rs:96-106 | it errs with "No value found for process: name" exactly when a key is unknown, and otherwise returns the cell at the keys' positions |
| FiltrationTable.Filtration.ValueByIndex | src/filtration.rs:69-81 | an unknown time gives "Time not found"; otherwise an unknown scenario gives "Scenario not found"; otherwise it returns the cell |
| FiltrationTable.Filtration.ValueOr | src/sim.rs:133-135 | the cell at the keys' last positions when all three keys are listed, and 0.0 otherwise |
| FiltrationTable.Filtration.Snapshot | src/process/util.rs:152-158 | what a coefficient closure can see: exactly the names `value` finds, with their values |
| FiltrationTable.Filtration.SliceUnchanged | src/filtration.rs:96-106 | while the time slice keeps its values, every lookup at that time is unchanged |
| FiltrationTable.Filtration.WriteStep | src/filtration.rs:108-118 | one more `set_value` in a loop extends the cells written so far by that name |
| FiltrationTable.Filtration.SetValue | src/filtration.rs:108-118 | a listed triple's cell takes the value and no other cell changes; an unlisted key changes nothing; afterwards `value` returns the written value |
| FiltrationTable.Filtration.SetInitialValues | src/filtration.rs:120-132 | exactly the cells of the first time's slice that scenario and name keys resolve to get the map's value, or 0.0 for a missing name; all else is unchanged |
| FiltrationTable.Filtration.SetScenarioInitialValues | src/filtration.rs:127-130 | one scenario's pass writes its cells at the first time and no others |
| FiltrationTable.Filtration.InitialCellsDistinct | src/filtration.rs:120-132 | with every key listed once, the cells written are exactly those of time index 0 |
| FiltrationTable.Filtration.TimeRowsLength | src/filtration.rs:142-149 | each time contributes `|scenarios|·|processes|` rows |
| FiltrationTable.Filtration.TimeRowsAt | src/filtration.rs:142-149 | within a time's rows, (s, p) sits at `s·P + p` |
| FiltrationTable.Filtration.RowsBeforeLength | src/filtration.rs:141-149 | the rows of the first t times number `t·S·P` |
| FiltrationTable.Filtration.RowsBeforeAt | src/filtration.rs:141-149 | the rows of an earlier time fill its block in the export |
| FiltrationTable.Filtration.ExportRowsSpec | src/filtration.rs:134-150 | the export has `|times|·|scenarios|·|processes|` rows, and the row at (t, s, p)'s time-major position carries t, s, the name and `raw_values[t, s, p]` |
| FiltrationTable.Filtration.ExportRowAt | src/filtration.rs:141-148 | the row at a cell's position is that cell's row |
| FiltrationTable.Filtration.ToRows | src/filtration.rs:134-150 | the nested loops emit exactly the export rows |
| Draws.Source.constructor | src/rng.rs:6-17 | a source starts with no queries answered |
| Draws.Source.Sample | src/rng.rs:10-16 | each call logs exactly one query, and the answer depends only on the history and the query |
| ProcessIncrement.Get | src/process/increment.rs:81-84 | the cache answers exactly its own key, with its value |
| ProcessIncrement.Put | src/process/increment.rs:84-87 | at capacity 1, putting a key makes it the only cached key |
| ProcessIncrement.NewTime | src/process/increment.rs:22-31 | the time increment named `dt` (no contract of its own; `TimeIncrementSpec` states it) |
| ProcessIncrement.TimeSample | src/process/increment.rs:34-42 | `t_end - t_start` (no contract of its own; `TimeIncrementSpec` states it) |
| ProcessIncrement.TimeIncrementSpec | src/process/increment.rs:23-42 | the time increment is named `dt`, its sample is `t_end - t_start` for every scenario, and so consecutive intervals add up |
| ProcessIncrement.WienerIncrementor.constructor | src/process/increment.rs:56-69 | it keeps the name and starts with an empty cache |
| ProcessIncrement.WienerIncrementor.Sample | src/process/increment.rs:73-91 | a cached key returns its value without a query; a miss queries the source once, under the increment's name, returns `√dt·Φ⁻¹(u)` and caches only the new key |
| ProcessIncrement.IsJumpCount | src/process/increment.rs:133-145 | the specification of the jump count: the smallest count whose cumulative probability reaches u, or 0 when `Poisson::new` refuses the rate (no contract of its own; `JumpCount` is proved against it) |
| ProcessIncrement.JumpCountUnique | src/process/increment.rs:133-145 | the smallest count whose cumulative probability reaches u is unique |
| ProcessIncrement.JumpCount | src/process/increment.rs:133-145 | the counting loop returns the smallest count whose cumulative probability reaches u, or 0 for a rate that is not positive |
| ProcessIncrement.JumpIncrementor.constructor | src/process/increment.rs:105-118 | it keeps the name and the rate and starts with an empty cache |
| ProcessIncrement.JumpIncrementor.Sample | src/process/increment.rs:122-152 | the same cache behaviour as the Wiener increment; a miss returns the jump count for the rate times the interval length |
| KeyedRng.MaxWordStallsJumpSearch | src/process/increment.rs:133-145 | the largest word draws exactly 1.0, and a distribution function below 1 everywhere never reaches it, so the counting loop has no count to stop at |
| ProcIncrement.Deltas | src/proc/increment.rs:29-35 | `len - 1` steps (none for an empty grid), each `t[i+1] - t[i]` |
| ProcIncrement.DeltasTelescope | src/proc/increment.rs:29-35 | the steps add up to the span of the grid |
| ProcIncrement.NewTime | src/proc/increment.rs:29-35 | one step per consecutive pair of grid times (none for an empty grid), step i being `t[i+1] - t[i]` |
| ProcIncrement.TimeSample | src/proc/increment.rs:40-42 | the stored step at the time index (no contract of its own; `TimeSampleIsStep` states it) |
| ProcIncrement.TimeSampleIsStep | src/proc/increment.rs:40-42 | `sample` at time index i is `t[i+1] - t[i]`, whatever the scenario |
| ProcIncrement.WienerIncrementor.constructor | src/proc/increment.rs:56-67 | the square roots of the steps, and an empty register |
| ProcIncrement.WienerIncrementor.Sample | src/proc/increment.rs:72-87 | a repeated (time, scenario) pair returns the registered value without a query; otherwise exactly one query (time, scenario, idx); the register then holds the pair and the value |
| ProcIncrement.JumpIncrementor.constructor | src/proc/increment.rs:102-113 | the rate, the steps, and an empty register |
| ProcIncrement.JumpIncrementor.Sample | src/proc/increment.rs:118-134 | the same register behaviour; a new value is the inverse Poisson count for `lambda·dt` |
| ProcIncrement.PoissonTermClosedForm | src/proc/increment.rs:170-178 | the `p *= lambda / k` recurrence computes `p0·lambda^k / k!` |
| ProcIncrement.InversePoisson | src/proc/increment.rs:163-181 | the count never exceeds 200 |
| ProcIncrement.PoissonSearch | src/proc/increment.rs:174-180 | the search ends between its start and 200 |
| ProcIncrement.InversePoissonSpec | src/proc/increment.rs:163-181 | a rate that is not positive gives 0; otherwise the count is at most 200, every smaller count's cumulative sum is below u, and a count below 200 has a cumulative sum of at least u |
| ProcIncrement.PoissonSearchSpec | src/proc/increment.rs:174-180 | the loop's exit condition: every earlier sum is below u, and below the cap the sum reached u |
| ProcIncrement.PoissonSearchFinds | src/proc/increment.rs:174-180 | a count with that property is the one the search finds |
| ProcIncrement.FastInversePoisson | src/proc/increment.rs:163-181 | the while loop returns the count the search function gives |
| KeyedRng.Uniform | src/rng.rs:47 | `next_u64 / u64::MAX` lies in [0, 1] |
| KeyedRng.DrawsInUnit | src/rng.rs:45-49 | every number in a drawn batch lies in [0, 1] |
| KeyedRng.PseudoRng.constructor | src/rng.rs:29-35 | an empty cache over a fresh stream |
| KeyedRng.PseudoRng.DrawBatch | src/rng.rs:45-49 | a miss draws exactly one word per increment name, in order, into the batch map |
| KeyedRng.PseudoRng.Sample | src/rng.rs:36-58 | a cached key draws nothing; a new key draws one batch and replaces the cache; the result is the batch's number for the name, in [0, 1], and the panic (`None`) exactly when the name is not an increment name |
| KeyedRng.Min | src/rng.rs:93-94 | the minimum of two lengths, where zip stops |
| KeyedRng.ZippedSpec | src/rng.rs:92-98 | the zipped map binds exactly the names that have a coordinate, each to the coordinate at its last such position |
| KeyedRng.SobolRng.constructor | src/rng.rs:71-81 | the dimension is the number of increment names, and the sequence starts after a skip in [100, 99999] |
| KeyedRng.SobolRng.ZipPoint | src/rng.rs:93-97 | the zip loop builds the zipped map |
| KeyedRng.SobolRng.Sample | src/rng.rs:82-107 | a cached key takes no point; a new key takes the next point if there is one, zipped to the names, or an empty batch; an unknown name gives 0.0 |
| IndexedRng.Window | src/rng/pseudo.rs:22-32 | n consecutive values of the stream from the given position |
| IndexedRng.PseudoRng.constructor | src/rng/pseudo.rs:14-20 | no cached step |
| IndexedRng.PseudoRng.RefreshCache | src/rng/pseudo.rs:22-32 | exactly `num_increments` new values, tagged with (Some(time), scenario) |
| IndexedRng.PseudoRng.Sample | src/rng/pseudo.rs:36-53 | it refreshes exactly when the cached scenario or time differs; the result is the cached value at the index, or 0.0 past the batch |
| IndexedRng.Scrambled | src/rng/sobol.rs:76-83 | scrambling keeps the vector's length |
| IndexedRng.ScrambleValueSpec | src/rng/sobol.rs:76-83 | a scrambled value keeps its sign and exponent bits |
| IndexedRng.ScrambleValue | src/rng/sobol.rs:79-80 | XOR with the same masked word undoes the scrambling |
| IndexedRng.ScrambleKeepsTop | src/rng/sobol.rs:76-83 | every value of a scrambled vector keeps its top 12 bits |
| IndexedRng.XorScrambler.constructor | src/rng/sobol.rs:70-74 | a fresh word stream |
| IndexedRng.XorScrambler.Scramble | src/rng/sobol.rs:76-83 | in place, each value is XORed with the mantissa bits of the next word |
| IndexedRng.Dims | src/rng/sobol.rs:17 | the path vector is empty exactly when there is a single time point or no increment |
| IndexedRng.PathIndex | src/rng/sobol.rs:57 | for an increment index below `num_increments`, division by `num_increments` gives back the time index and the increment index |
| IndexedRng.PathIndexInRange | src/rng/sobol.rs:17-57 | each (time step, increment) index lies within the path vector |
| IndexedRng.PathIndexInjective | src/rng/sobol.rs:57 | distinct (time, increment) pairs read distinct coordinates |
| IndexedRng.PathValue | src/rng/sobol.rs:53-59 | the cached coordinate, 0.0 past the vector, and the panic (`None`) exactly when nothing is cached |
| IndexedRng.SobolRng.constructor | src/rng/sobol.rs:16-27 | dimension `dims`, skipped by 5 points, no cached path |
| IndexedRng.SobolRng.RefreshCache | src/rng/sobol.rs:29-39 | the next point, scrambled, becomes the scenario's path; an exhausted sequence leaves the cache as it was |
| IndexedRng.SobolRng.Sample | src/rng/sobol.rs:43-60 | a new path is drawn only when the scenario changes; the result is coordinate `time·num_increments + increment` of the path |
| Schemes.StageSumSplit | src/sim.rs:77-81 | a stage sum is the Euler sum plus the shift times the coefficients of every term after the first |
| Schemes.StagesCancel | src/sim/runge_kutta.rs:62-66 | with the same coefficients in both stages, the mean of the two stage sums is the Euler sum |
| Schemes.EulerSum | src/sim/euler.rs:15-24 | the Euler increment Σ c·x over the terms in index order; its own contract states only the two zero cases (no draw, or no coefficient), and what the sum means is stated by `StageSumSplit` and `StagesCancel` |
| Schemes.StageSum | src/sim.rs:74-82 | one stage's sum over a process's terms (no contract of its own; `StageSumSplit` states it) |
| KeyedSim.EulerUpdate | src/sim.rs:133-140 | one process's new value: `x(t_start)` (0.0 when missing) plus `Σ c·x`, with the coefficients read at `t_start` |
| KeyedSim.EulerIteration | src/sim.rs:124-143 | only the `t_end` row of the scenario changes; when `t_start` and `t_end` differ, it holds `x_old + Σ c·d` for every process, in process order |
| KeyedSim.StageUpdate | src/sim.rs:74-82 | one stage term loop: term 0 is `c·d`, later terms `c·(d + shift)` |
| KeyedSim.StageOne | src/sim.rs:70-92 | `k1` for every process, and `x_old + k1` written into the scratchpad row (0.0, 0) |
| KeyedSim.StageTwo | src/sim.rs:94-108 | `k2` for every process, with coefficients read from the scratchpad at (0.0, 0) |
| KeyedSim.FinalUpdate | src/sim.rs:110-121 | only the `t_end` row changes; when `t_start` and `t_end` differ, it holds `x_old + ½(k1 + k2)` for every process |
| KeyedSim.RungeKuttaIteration | src/sim.rs:51-122 | stage 1 with shift `-sk·√dt` fills the scratchpad; stage 2 with `+sk·√dt` reads it; `t_end` gets `x_old + ½(k1 + k2)`; nothing else in the filtration changes |
| KeyedSim.Windows | src/sim.rs:29 | one step per consecutive pair of grid times |
| KeyedSim.KeyOrder | src/sim.rs:28-29 | every step's scenario lies in `1..=n` |
| Arith.DivModOfBlock | src/sim.rs:28-29 | a position inside block q has quotient q |
| KeyedSim.KeyOrderSpec | src/sim.rs:28-29 | `n·(|grid| - 1)` steps, step i being scenario `i / w + 1` over window `i % w`; none without two grid times or a scenario |
| KeyedSim.KeyOrderLength | src/sim.rs:28-29 | the number of steps |
| KeyedSim.KeyOrderAt | src/sim.rs:28-29 | step i of the order |
| KeyedSim.NewScratchpad | src/sim.rs:16-23 | a fresh 1×1 table at (0.0, 0) over the process names, all zeros |
| KeyedSim.RunScenario | src/sim.rs:29-47 | one step per window, in order; an unknown scheme panics before writing; only cells of the scenario at a window's end can change |
| KeyedSim.Simulate | src/sim.rs:6-49 | a scratchpad exactly for "runge-kutta"; steps in scenario-major order `1..=n`; an unknown scheme panics exactly when there is a step, before writing; only window-end cells of scenarios `1..=n` can change |
| IndexedSim.SchemeOf | src/sim/mod.rs:24-38 | "euler" and "runge-kutta" are the two schemes; any other name is unknown |
| IndexedSim.EulerRow | src/sim/euler.rs:12-26 | one new value per process |
| IndexedSim.StageRow | src/sim/runge_kutta.rs:22-35 | one stage sum per process |
| Schemes.Plus | src/sim/runge_kutta.rs:40 | the support row has one entry per process |
| Schemes.Averaged | src/sim/runge_kutta.rs:63-64 | the final row has one entry per process; with equal stages it is `x_old` plus that stage, as a single Euler-like step |
| IndexedSim.FirstStage | src/sim/runge_kutta.rs:22-43 | `k1` has one entry per process |
| IndexedSim.Support | src/sim/runge_kutta.rs:36-41 | the scratchpad row has one entry per process |
| IndexedSim.SecondStage | src/sim/runge_kutta.rs:46-61 | `k2` has one entry per process |
| IndexedSim.RungeKuttaRow | src/sim/runge_kutta.rs:62-66 | the new slice has one entry per process |
| IndexedSim.RungeKuttaReducesToEuler | src/sim/runge_kutta.rs:4-67 | with state-independent coefficients the two-stage step equals the Euler step |
| IndexedSim.ScenarioSteps | src/sim/mod.rs:23 | the steps of one scenario, time index 0 to T - 1 |
| IndexedSim.StepOrder | src/sim/mod.rs:22-23 | the steps of the nested loops, scenario by scenario (no contract of its own; `StepOrderSpec` states it) |
| IndexedSim.StepOrderSpec | src/sim/mod.rs:22-23 | `S·T` steps, in strictly increasing scenario-major order, covering exactly the pairs in range, so each once |
| IndexedSim.Filtration.constructor | src/sim/mod.rs:13-18 | a table of the given keys and processes, all zeros |
| IndexedSim.Filtration.Set | src/sim/euler.rs:26 | `get` at the cell returns the value, and no other cell changes |
| IndexedSim.Filtration.Get | src/sim/euler.rs:13 | the process's entry of the slice a coefficient called at (scenario, time) reads |
| IndexedSim.Filtration.Slice | src/sim/euler.rs:13 | the values of every process at (scenario, time) |
| IndexedSim.Filtration.GridSlices | src/sim/mod.rs:22-23 | the whole table seen as slices |
| IndexedSim.Filtration.StepRow | src/sim/mod.rs:24-38 | a scheme's new slice has one entry per process |
| IndexedSim.Filtration.Trajectory | src/sim/mod.rs:23 | the slices of one scenario from a start row: n + 1 rows, the first the start |
| IndexedSim.Filtration.EulerUpdate | src/sim/euler.rs:13-25 | one process's `get(time_idx) + Σ c·x`, the coefficients read on slice `time_idx`, the incrementors sampled with (time_idx, scenario_idx) |
| IndexedSim.Filtration.EulerIteration | src/sim/euler.rs:4-28 | slice `time_idx + 1` of the scenario becomes the Euler row of the old slice `time_idx`, and no other slice changes |
| IndexedSim.Filtration.StageOne | src/sim/runge_kutta.rs:22-43 | `k1`, and the scratchpad's (0, 0) slice holds `get + k1` per process; the filtration is untouched |
| IndexedSim.Filtration.StageTwo | src/sim/runge_kutta.rs:46-61 | `k2` with coefficients read on the scratchpad at (0, 0) |
| IndexedSim.Filtration.FinalUpdate | src/sim/runge_kutta.rs:62-66 | slice `time_idx + 1` becomes `x_old + ½(k1 + k2)`, and nothing else changes |
| IndexedSim.Filtration.Stages | src/sim/runge_kutta.rs:21-61 | stage 1 ends for all processes before stage 2, so `k2` sees every support value |
| IndexedSim.Filtration.RungeKuttaIteration | src/sim/runge_kutta.rs:4-67 | slice `time_idx + 1` becomes the two-stage row of the old slice `time_idx`, with `sk` in {1, -1}; no other slice changes |
| IndexedSim.Filtration.Dispatch | src/sim/mod.rs:24-38 | a known scheme runs its step; an unknown one panics with nothing written |
| IndexedSim.Filtration.SteppedIsTrajectory | src/sim/mod.rs:22-23 | slices that each follow from the previous one by a step are the trajectory from the first |
| IndexedSim.Filtration.ProgressStep | src/sim/mod.rs:23-38 | one more step keeps the invariant of the time loop |
| IndexedSim.Filtration.FinishedStep | src/sim/mod.rs:22-40 | one more finished scenario keeps the invariant of the scenario loop |
| IndexedSim.Filtration.Advance | src/sim/mod.rs:24-38 | one step of the time loop keeps its invariant, or panics with nothing written |
| IndexedSim.Filtration.RunScenario | src/sim/mod.rs:23-39 | the scenario's steps in time order, each slice the step of the previous one; an unknown scheme panics at its first step, before writing |
| IndexedSim.Filtration.Simulate | src/sim/mod.rs:8-41 | an empty time grid panics (`len() - 1` underflow, with overflow checks on); an unknown scheme panics exactly when there is a step, with nothing written; otherwise every pair visited once in scenario-major order, every slice `t + 1` is the step of slice `t`, slice 0 is never written, and a 1×1 scratchpad exists exactly for "runge-kutta" |

## Left out

- Floating-point arithmetic. Values are `real` and rounding is not modelled. The following are function parameters:
  - `sqrt`;
  - `exp`;
  - `ln`;
  - `fast_inverse_normal_cdf` (src/proc/increment.rs:142-160);
  - statrs `Normal::inverse_cdf` and `Poisson::cdf`;
  - `f64` parsing.
- The expression library. Coefficients are kept as their expression text. Whether an expression parses is a parameter. Evaluation is a function of the values the closure can look up. The `X\w*` scan of process names (src/process/util.rs:18, 137-140) is therefore not modelled; the closure may read any process value that `value` finds.
- Random generators. `ThreadRng`, `ChaCha8Rng` and the `sobol` crate's point generation are abstract streams or sequences. `rand::random_bool(0.5)` and `gen_range(100..=99999)` are parameters.
- `lru::LruCache` internals. The capacity-1 caches are an `Option` of one entry.
- The polars `DataFrame` (src/filtration.rs:151). The export is the sequence of its rows.
- Output and timing: `println!` and `eprintln!`.
- Python bindings, the CLI, examples and the trait declarations of `src/process/mod.rs`.
- Regex matching on byte offsets. Strings are sequences of characters, so the byte offsets of `char_indices` and slices are character positions. The line-feed stop of the lazy `.*?` is modelled. Unicode case and normalisation are not.
- The `Filtration` of the index-based drivers. Its declaration is not part of this model. `IndexedSim.Filtration` rebuilds it from the calls the drivers make: `times`, `scenarios`, `processes`, `get`, `set` and `new`.
- The `StepCache` declaration of the index-based sources. It is not part of this model and is rebuilt from its uses.
- Cross-revision consistency. The two generations are modelled side by side and do not call each other.
- Draws inside the drivers are a function of the incrementor and the step key. This relies on the caches and registers proved in `ProcessIncrement`, `ProcIncrement`, `KeyedRng` and `IndexedRng`, which have capacity 1 and so answer only the most recent key from the cache. The drivers do not thread one random source through every sample call.
- KeyedSim.Simulate: its `Sampler` and its `Randomness.coin` are functions of the step key, so a window that comes back after a different one gets the same draws and the same `sk` as its first occurrence. On the grid [0, 1, 0, 1] the windows are (0, 1), (1, 0), (0, 1). At the third step the source misses every capacity-1 cache (src/process/increment.rs:60-65 and 109-114, src/rng.rs:31 and 77), draws a new batch, and `rand::random_bool` (src/sim.rs:68) flips a new `sk`. The index-based drivers visit each (time, scenario) pair once, so they do not meet this case.
- FiltrationTable.Filtration.constructor: it requires the `raw_values` array to have the shape of the key lists. A mismatched array makes the source panic on its first access. It also requires a time when initial values are given; with no time the source panics at `self.times[0]` (src/filtration.rs:121).
- FiltrationTable.Filtration.GetRaw: requires the indices to lie in the table. Out of range, the ndarray index panics (src/filtration.rs:58).
- FiltrationTable.Filtration.SetRaw: requires the indices to lie in the table. Out of range, the ndarray index panics (src/filtration.rs:64).
- FiltrationTable.Filtration.ValueByIndex: requires the process index to lie in the table when the time and scenario are both listed. Otherwise the ndarray index panics (src/filtration.rs:80).
- ProcIncrement.TimeSample: requires the time index to lie within the steps. Past the last step, `dts[time_idx]` panics (src/proc/increment.rs:41).
- ProcIncrement.WienerIncrementor.Sample: requires the time index to lie within the steps when the register misses. Otherwise `sqrt_dts[time_idx]` panics (src/proc/increment.rs:80).
- ProcIncrement.JumpIncrementor.Sample: requires the time index to lie within the steps when the register misses. Otherwise `dts[time_idx]` panics (src/proc/increment.rs:126).
- IndexedRng.SobolRng.constructor: requires at least one time point. With none, `num_timesteps - 1` underflows (src/rng/sobol.rs:17): a panic with overflow checks on, a wrapped dimension without them.
- IndexedRng.Dims: requires at least one time point, for the same underflow.
- ProcessIncrement.JumpCount: requires that some count's cumulative probability reaches u. The source's `for _jump_count in 0..` (src/process/increment.rs:136) has no bound, and over the reals it never stops for u = 1.0, since every Poisson cumulative probability is below 1. The keyed uniform can return exactly 1.0, as `KeyedRng.MaxWordStallsJumpSearch` shows. In `f64` the loop stops only once the distribution function rounds up to u. That rounding is not modelled.
- ProcessIncrement.JumpIncrementor.Sample: requires the same when the cache misses, for the same reason.
- KeyedSim.FinalUpdate: states the final values only when `t_start` and `t_end` are different keys. With equal keys the update reads values written earlier in the same loop; the model then states only the frame.
- KeyedSim.EulerIteration: states the written values only when `t_start` and `t_end` are different keys. With equal keys, later processes read values written earlier in the same step; the model states only the frame in that case.
- KeyedSim.RungeKuttaIteration: states the final values only when `t_start` and `t_end` are different keys, for the same reason.
- KeyedSim.Simulate: states the step order, the panic and the cells that may change. It does not state the values the steps compute. Those are stated per step by `EulerIteration` and `RungeKuttaIteration`.
- KeyedSim.RunScenario: states the frame and the order of one scenario's steps, not the values.
- IndexedSim.Filtration.Simulate: follows a build with overflow checks on, where an empty time grid panics at `len() - 1` (src/sim/mod.rs:10). In a release build the subtraction wraps. `simulate` then returns normally when there is no scenario. With a scenario it panics later: at `filtration.times[time_idx]` (src/sim/euler.rs:10, src/sim/runge_kutta.rs:11), or with "Unknown scheme".
- KeyedRng.PseudoRng.Sample: the uniform draw's upper bound is 1.0 inclusive, as `u64::MAX / u64::MAX` is. The source's `f64` rounding of large words is not modelled.
