/** Runs of a step system.

    Every protocol in this project is a total function `step` from a state and
    an event to a state. An event whose guard does not hold leaves the state
    unchanged, so every finite sequence of events is a run, and the states
    reached by all event sequences are exactly the reachable states of the
    guarded system.
*/
module Runs {

  /** The state after the events `es`, in order, from `s`. */
  ghost function Exec<S, E>(step: (S, E) -> S, s: S, es: seq<E>): S
  {
    if es == [] then s else step(Exec(step, s, es[..|es| - 1]), es[|es| - 1])
  }

  lemma ExecSnoc<S, E>(step: (S, E) -> S, s: S, es: seq<E>, e: E)
    ensures Exec(step, s, es + [e]) == step(Exec(step, s, es), e)
  {
    assert (es + [e])[..|es|] == es;
  }

  lemma {:induction false} ExecConcat<S, E>(step: (S, E) -> S, s: S, first: seq<E>, second: seq<E>)
    ensures Exec(step, s, first + second) == Exec(step, Exec(step, s, first), second)
    decreases |second|
  {
    if second == [] {
      assert first + second == first;
    } else {
      var n := |second| - 1;
      ExecConcat(step, s, first, second[..n]);
      assert first + second == (first + second[..n]) + [second[n]];
      ExecSnoc(step, s, first + second[..n], second[n]);
    }
  }

  ghost predicate Inductive<S(!new), E(!new)>(step: (S, E) -> S, inv: S -> bool)
  {
    forall s, e :: inv(s) ==> inv(step(s, e))
  }

  /** An inductive predicate that holds at the start holds after every run. */
  lemma {:induction false} InvariantHolds<S(!new), E(!new)>(
      step: (S, E) -> S, inv: S -> bool, s: S, es: seq<E>)
    requires inv(s) && Inductive(step, inv)
    ensures inv(Exec(step, s, es))
    decreases |es|
  {
    if es == [] {
    } else {
      InvariantHolds(step, inv, s, es[..|es| - 1]);
    }
  }
}
