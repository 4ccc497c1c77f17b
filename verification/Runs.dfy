/** Runs of a step relation. */
module Runs {
  ghost predicate Chained<S, T>(states: seq<S>, steps: seq<T>, leads: (S, T, S) -> bool) {
    && |states| == |steps| + 1
    && forall i {:trigger steps[i]} :: 0 <= i < |steps| ==> leads(states[i], steps[i], states[i + 1])
  }

  lemma Longer<S, T>(states: seq<S>, steps: seq<T>, leads: (S, T, S) -> bool, step: T, n: S)
    requires Chained(states, steps, leads) && leads(states[|steps|], step, n)
    ensures Chained(states + [n], steps + [step], leads)
  {
    var states', steps' := states + [n], steps + [step];
    forall i {:trigger steps'[i]} | 0 <= i < |steps'|
      ensures leads(states'[i], steps'[i], states'[i + 1])
    {
      if i < |steps| {
        assert leads(states[i], steps[i], states[i + 1]);
      }
    }
  }
}
