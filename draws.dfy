/**
 * The random sources the simulator draws from, seen from outside.
 *
 * Every increment is handed a `dyn Rng` and only calls its `sample`. The
 * model keeps the list of queries it has answered and leaves its answers
 * abstract: the answer to a query may depend on the query and on everything
 * asked before it, which covers any generator behind the trait.
 */
module Draws {
  /** A query of the index-based `Rng::sample(time_idx, scenario_idx, increment_idx)`. */
  datatype StepQuery = StepQuery(timeIdx: nat, scenarioIdx: nat, incrementIdx: nat)

  /** A query of the key-based `Rng::sample(scenario, t_start, t_end, increment_name)`. */
  datatype KeyQuery = KeyQuery(scenario: int, tStart: real, tEnd: real, name: string)

  /** A random source behind the `Rng` trait: the log of its queries and an abstract answer. */
  class Source<Q> {
    var queries: seq<Q>
    const answer: (seq<Q>, Q) -> real

    constructor (answer: (seq<Q>, Q) -> real)
      ensures queries == [] && this.answer == answer
    {
      queries := [];
      this.answer := answer;
    }

    /** `Rng::sample`: one query, logged, answered from the history so far. */
    method Sample(q: Q) returns (u: real)
      modifies this
      ensures queries == old(queries) + [q]
      ensures u == answer(old(queries), q)
    {
      u := answer(queries, q);
      queries := queries + [q];
    }
  }
}
