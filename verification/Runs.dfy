/**
  Runs of a labelled transition system, and the two induction principles every
  protocol model here uses.
 */
module Runs {

  datatype Option<+T> = None | Some(value: T)

  /** `states[i]` goes to `states[i + 1]` by `steps[i]`. */
  datatype Run<S, A> = Run(states: seq<S>, steps: seq<A>)

  ghost predicate IsRun<S(!new), A(!new)>(init: S -> bool, next: (S, A, S) -> bool, r: Run<S, A>) {
    && |r.states| == |r.steps| + 1
    && init(r.states[0])
    && forall i | 0 <= i < |r.steps| :: next(r.states[i], r.steps[i], r.states[i + 1])
  }

  /** A fact that every allowed step keeps lasts from state `i` to state `j`
      when all the steps in between are allowed. */
  lemma {:induction false} Lasts<S(!new), A(!new)>(
      init: S -> bool, next: (S, A, S) -> bool, allowed: A -> bool, fact: S -> bool, r: Run<S, A>, i: nat, j: nat)
    requires IsRun(init, next, r)
    requires i <= j < |r.states|
    requires forall s, a, t :: fact(s) && next(s, a, t) && allowed(a) ==> fact(t)
    requires forall k | i <= k < j :: allowed(r.steps[k])
    requires fact(r.states[i])
    ensures fact(r.states[j])
    decreases j - i
  {
    if i < j {
      assert next(r.states[i], r.steps[i], r.states[i + 1]);
      Lasts(init, next, allowed, fact, r, i + 1, j);
    }
  }

  /** An inductive invariant holds in every state of a run. */
  lemma Invariant<S(!new), A(!new)>(
      init: S -> bool, next: (S, A, S) -> bool, inv: S -> bool, r: Run<S, A>)
    requires IsRun(init, next, r)
    requires forall s :: init(s) ==> inv(s)
    requires forall s, a, t :: inv(s) && next(s, a, t) ==> inv(t)
    ensures forall i | 0 <= i < |r.states| :: inv(r.states[i])
  {
    forall i | 0 <= i < |r.states| ensures inv(r.states[i]) {
      Lasts(init, next, a => true, inv, r, 0, i);
    }
  }

  /** A run can go on with any enabled step. */
  lemma Extended<S(!new), A(!new)>(init: S -> bool, next: (S, A, S) -> bool, r: Run<S, A>, a: A, t: S)
      returns (r': Run<S, A>)
    requires IsRun(init, next, r) && next(r.states[|r.steps|], a, t)
    ensures IsRun(init, next, r') && r' == Run(r.states + [t], r.steps + [a])
  {
    r' := Run(r.states + [t], r.steps + [a]);
  }
}
