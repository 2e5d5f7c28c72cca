/**
 * The general (Levy) process: a name, one coefficient per term and one
 * incrementor per term. The coefficient and incrementor types are left generic
 * because the model never looks inside them here.
 */
module Levy {
  import opened Wrappers

  /** The fields double as the `name()`, `coefficients()` and `incrementors()` accessors. */
  datatype LevyProcess<C, I> = LevyProcess(name: string, coefficients: seq<C>, incrementors: seq<I>)
  {
    /** The invariant `LevyProcess::new` establishes: one incrementor per coefficient. */
    predicate Valid() { |coefficients| == |incrementors| }
  }

  /** Every process of a list keeps the invariant. */
  predicate AllValid<C, I>(processes: seq<LevyProcess<C, I>>) {
    forall i :: 0 <= i < |processes| ==> processes[i].Valid()
  }

  datatype LevyError = LengthMismatch

  /** `LevyProcess::new`: refuses coefficient and incrementor lists of different lengths. */
  function New<C, I>(name: string, coefficients: seq<C>, incrementors: seq<I>): (r: Result<LevyProcess<C, I>, LevyError>)
    ensures r.Err? <==> |coefficients| != |incrementors|
    ensures r.Ok? ==> r.value.Valid() && r.value.name == name
    ensures r.Ok? ==> r.value.coefficients == coefficients && r.value.incrementors == incrementors
  {
    if |coefficients| != |incrementors| then Err(LengthMismatch)
    else Ok(LevyProcess(name, coefficients, incrementors))
  }
}
