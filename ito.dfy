/**
 * The Ito process: exactly two terms, drift against the time increment and
 * diffusion against a Wiener increment.
 */
module Ito {
  import opened Wrappers

  /** The two incrementors an Ito process is built with. */
  datatype ItoIncrementor = TimeIncrement | WienerIncrement

  datatype ItoProcess<C> = ItoProcess(name: string, coefficients: seq<C>, incrementors: seq<ItoIncrementor>)
  {
    /** The layout `ItoProcess::new` fixes: [drift, diffusion] against [dt, dW]. */
    predicate Valid() {
      |coefficients| == 2 && incrementors == [TimeIncrement, WienerIncrement]
    }

    /** `drift()`: the first coefficient. */
    function Drift(): C
      requires Valid()
    { coefficients[0] }

    /** `diffusion()`: the second coefficient. */
    function Diffusion(): C
      requires Valid()
    { coefficients[1] }
  }

  /** `ItoProcess::new` has no failing path. */
  function New<C>(name: string, drift: C, diffusion: C): (r: Result<ItoProcess<C>, string>)
    ensures r.Ok? && r.value.Valid() && r.value.name == name
    ensures r.value.Drift() == drift && r.value.Diffusion() == diffusion
    ensures |r.value.coefficients| == |r.value.incrementors|
  {
    Ok(ItoProcess(name, [drift, diffusion], [TimeIncrement, WienerIncrement]))
  }
}
