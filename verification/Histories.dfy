/** Runs of a state machine: any number of steps, in any order. */
module Histories {

  /** The states before, between and after a sequence of steps. */
  ghost predicate IsRun<S, C>(step: (S, C, S) -> bool, states: seq<S>, calls: seq<C>) {
    && |states| == |calls| + 1
    && forall i {:trigger calls[i]} :: 0 <= i < |calls| ==> step(states[i], calls[i], states[i + 1])
  }

  /** What every step keeps holds in every state of a run. */
  lemma {:induction false} Always<S(!new), C(!new)>(step: (S, C, S) -> bool, inv: S -> bool,
                                                    states: seq<S>, calls: seq<C>, n: nat)
    requires IsRun(step, states, calls) && n < |states| && inv(states[0])
    requires forall i {:trigger calls[i]} :: 0 <= i < |calls| ==>
               (inv(states[i]) && step(states[i], calls[i], states[i + 1]) ==> inv(states[i + 1]))
    ensures inv(states[n])
  {
    if n > 0 {
      Always(step, inv, states, calls, n - 1);
      assert step(states[n - 1], calls[n - 1], states[n]);
    }
  }

  /** What every step keeps about an earlier state still holds later on. */
  lemma {:induction false} AlwaysSince<S(!new), C(!new)>(step: (S, C, S) -> bool, rel: (S, S) -> bool,
                                                         states: seq<S>, calls: seq<C>, m: nat, n: nat)
    requires IsRun(step, states, calls) && m <= n < |states|
    requires forall s :: rel(s, s)
    requires forall s, i {:trigger rel(s, states[i]), calls[i]} :: 0 <= i < |calls| ==>
               (rel(s, states[i]) && step(states[i], calls[i], states[i + 1]) ==> rel(s, states[i + 1]))
    ensures rel(states[m], states[n])
  {
    if m < n {
      AlwaysSince(step, rel, states, calls, m, n - 1);
      assert step(states[n - 1], calls[n - 1], states[n]);
      assert rel(states[m], states[n - 1]);
    }
  }
}
