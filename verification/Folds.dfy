/** Left folds and their induction principle. */
module Folds {

  function Fold<S, A>(step: (S, A) -> S, s: S, xs: seq<A>): S {
    if xs == [] then s else step(Fold(step, s, xs[..|xs| - 1]), xs[|xs| - 1])
  }

  /** What holds before the first element and survives each holds at the end. */
  lemma {:induction false} FoldInvariant<S(!new), A>(step: (S, A) -> S, s: S, xs: seq<A>, inv: (nat, S) -> bool)
    requires inv(0, s)
    requires forall i: nat, t :: i < |xs| && inv(i, t) ==> inv(i + 1, step(t, xs[i]))
    ensures inv(|xs|, Fold(step, s, xs))
  {
    if xs != [] {
      var front := xs[..|xs| - 1];
      assert forall i: nat :: i < |front| ==> front[i] == xs[i];
      FoldInvariant(step, s, front, inv);
    }
  }

  lemma FoldPrefix<S, A>(step: (S, A) -> S, s: S, xs: seq<A>, i: int)
    requires 0 <= i < |xs|
    ensures Fold(step, s, xs[..i + 1]) == step(Fold(step, s, xs[..i]), xs[i])
  {
    assert xs[..i + 1][..i] == xs[..i];
  }

  lemma {:induction false} FoldCons<S, A>(step: (S, A) -> S, s: S, x: A, xs: seq<A>)
    ensures Fold(step, s, [x] + xs) == Fold(step, step(s, x), xs)
  {
    if xs == [] {
      assert [x] + xs == [x] && [x][..0] == [];
    } else {
      FoldCons(step, s, x, xs[..|xs| - 1]);
      assert ([x] + xs)[..|xs|] == [x] + xs[..|xs| - 1];
    }
  }

  lemma {:induction false} FoldAppend<S, A>(step: (S, A) -> S, s: S, xs: seq<A>, ys: seq<A>)
    ensures Fold(step, s, xs + ys) == Fold(step, Fold(step, s, xs), ys)
  {
    if ys == [] {
      assert xs + ys == xs;
    } else {
      FoldAppend(step, s, xs, ys[..|ys| - 1]);
      assert (xs + ys)[..|xs + ys| - 1] == xs + ys[..|ys| - 1];
    }
  }

  /** A fold goes through the states of any trace of its steps. */
  lemma {:induction false} FoldTrace<S, A>(step: (S, A) -> S, xs: seq<A>, states: seq<S>)
    requires |states| == |xs| + 1
    requires forall i :: 0 <= i < |xs| ==> states[i + 1] == step(states[i], xs[i])
    ensures Fold(step, states[0], xs) == states[|xs|]
  {
    if xs != [] {
      FoldTrace(step, xs[..|xs| - 1], states[..|xs|]);
    }
  }

  lemma EightSteps<S, A>(step: (S, A) -> S, s: S, xs: seq<A>)
    requires |xs| == 8
    ensures var s4 := step(step(step(step(s, xs[0]), xs[1]), xs[2]), xs[3]);
            Fold(step, s, xs) == step(step(step(step(s4, xs[4]), xs[5]), xs[6]), xs[7])
  {
    var s1 := step(s, xs[0]);
    var s2 := step(s1, xs[1]);
    var s3 := step(s2, xs[2]);
    var s4 := step(s3, xs[3]);
    var s5 := step(s4, xs[4]);
    var s6 := step(s5, xs[5]);
    var s7 := step(s6, xs[6]);
    FoldTrace(step, xs, [s, s1, s2, s3, s4, s5, s6, s7, step(s7, xs[7])]);
  }

  lemma TenSteps<S, A>(step: (S, A) -> S, s: S, xs: seq<A>)
    requires |xs| == 10
    ensures var s5 := step(step(step(step(step(s, xs[0]), xs[1]), xs[2]), xs[3]), xs[4]);
            Fold(step, s, xs) == step(step(step(step(step(s5, xs[5]), xs[6]), xs[7]), xs[8]), xs[9])
  {
    var s1 := step(s, xs[0]);
    var s2 := step(s1, xs[1]);
    var s3 := step(s2, xs[2]);
    var s4 := step(s3, xs[3]);
    var s5 := step(s4, xs[4]);
    var s6 := step(s5, xs[5]);
    var s7 := step(s6, xs[6]);
    var s8 := step(s7, xs[7]);
    var s9 := step(s8, xs[8]);
    FoldTrace(step, xs, [s, s1, s2, s3, s4, s5, s6, s7, s8, s9, step(s9, xs[9])]);
  }
}
