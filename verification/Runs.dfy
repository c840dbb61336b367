/** Runs of a step machine whose step is a total function. */
module Runs {

  function Fold<S, A>(step: (S, A) -> S, s: S, acts: seq<A>): S
    decreases |acts|
  {
    if acts == [] then s else step(Fold(step, s, acts[..|acts| - 1]), acts[|acts| - 1])
  }

  lemma FoldOneMore<S, A>(step: (S, A) -> S, s: S, acts: seq<A>, a: A)
    ensures Fold(step, s, acts + [a]) == step(Fold(step, s, acts), a)
  {
    assert (acts + [a])[..|acts|] == acts;
  }

  lemma {:induction false} FoldSplits<S, A>(step: (S, A) -> S, s: S, acts: seq<A>, more: seq<A>)
    ensures Fold(step, s, acts + more) == Fold(step, Fold(step, s, acts), more)
    decreases |more|
  {
    if more == [] {
      assert acts + more == acts;
    } else {
      var n := |more| - 1;
      assert (acts + more)[..|acts| + n] == acts + more[..n];
      FoldSplits(step, s, acts, more[..n]);
    }
  }

  /** How many steps of the run are taken in a state where `counts` holds of state and action. */
  function CountSteps<S, A>(step: (S, A) -> S, s: S, acts: seq<A>, counts: (S, A) -> bool): nat
    decreases |acts|
  {
    if acts == [] then 0
    else
      var n := |acts| - 1;
      CountSteps(step, s, acts[..n], counts) + if counts(Fold(step, s, acts[..n]), acts[n]) then 1 else 0
  }

  /** A measure that each step raises by one exactly when it counts is the number of steps that count. */
  lemma {:induction false} MeasureCounts<S(!new), A(!new)>(
    step: (S, A) -> S, s: S, acts: seq<A>, measure: S -> int, counts: (S, A) -> bool)
    requires forall t, a :: measure(step(t, a)) == measure(t) + if counts(t, a) then 1 else 0
    ensures measure(Fold(step, s, acts)) == measure(s) + CountSteps(step, s, acts, counts)
    decreases |acts|
  {
    if acts != [] {
      MeasureCounts(step, s, acts[..|acts| - 1], measure, counts);
    }
  }

  /** No step counts, so the count is zero. */
  lemma {:induction false} NoneCount<S, A>(step: (S, A) -> S, s: S, acts: seq<A>, counts: (S, A) -> bool)
    requires forall n | 0 <= n < |acts| :: !counts(Fold(step, s, acts[..n]), acts[n])
    ensures CountSteps(step, s, acts, counts) == 0
    decreases |acts|
  {
    if acts != [] {
      var short := acts[..|acts| - 1];
      forall n | 0 <= n < |short| ensures !counts(Fold(step, s, short[..n]), short[n]) {
        assert short[..n] == acts[..n];
      }
      NoneCount(step, s, short, counts);
    }
  }
}
