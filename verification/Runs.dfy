/** Runs of a transition system, and the induction that carries an invariant along them. */
module Runs {

  /** `ss` starts in an initial state and every state is a successor of the one before. */
  ghost predicate Run<S(!new)>(init: S -> bool, step: (S, S) -> bool, ss: seq<S>) {
    && |ss| > 0
    && init(ss[0])
    && forall i :: 0 <= i < |ss| - 1 ==> step(ss[i], ss[i + 1])
  }

  ghost predicate Inductive<S(!new)>(init: S -> bool, step: (S, S) -> bool, inv: S -> bool) {
    && (forall s :: init(s) ==> inv(s))
    && (forall s, s' :: inv(s) && step(s, s') ==> inv(s'))
  }

  lemma StepAt<S(!new)>(init: S -> bool, step: (S, S) -> bool, ss: seq<S>, i: nat)
    requires Run(init, step, ss) && 0 < i < |ss|
    ensures step(ss[i - 1], ss[i])
  {
    assert step(ss[i - 1], ss[i - 1 + 1]);
  }

  lemma {:induction false} Invariant<S(!new)>(init: S -> bool, step: (S, S) -> bool, inv: S -> bool, ss: seq<S>, i: nat)
    requires Inductive(init, step, inv)
    requires Run(init, step, ss)
    requires i < |ss|
    ensures inv(ss[i])
  {
    if i == 0 {
    } else {
      Invariant(init, step, inv, ss, i - 1);
      assert step(ss[i - 1], ss[i - 1 + 1]);
    }
  }

  /** What holds at `k` and is handed on by every step up to `j` holds at `j`. */
  lemma {:induction false} Onward<S(!new)>(p: S -> bool, ss: seq<S>, k: nat, j: nat)
    requires k <= j < |ss| && p(ss[k])
    requires forall m | k < m <= j :: p(ss[m - 1]) ==> p(ss[m])
    ensures p(ss[j])
  {
    if k == j {
    } else {
      Onward(p, ss, k, j - 1);
    }
  }
}
