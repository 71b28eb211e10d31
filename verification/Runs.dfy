/** Finite runs of a state machine given by its step relation. */
module Runs {

  ghost predicate IsRun<S, U>(step: (S, U, S) -> bool, states: seq<S>, labels: seq<U>) {
    && |states| == |labels| + 1
    && forall i | 0 <= i < |labels| :: step(states[i], labels[i], states[i + 1])
  }

  lemma RunCons<S, U>(step: (S, U, S) -> bool, s: S, u: U, states: seq<S>, labels: seq<U>)
    requires IsRun(step, states, labels) && step(s, u, states[0])
    ensures IsRun(step, [s] + states, [u] + labels)
    ensures ([s] + states)[0] == s && ([s] + states)[|[u] + labels|] == states[|labels|]
  {
  }
}
