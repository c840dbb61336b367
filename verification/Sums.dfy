/** Sums of a weight over a sequence; the step machines count goroutines with them. */
module Sums {

  /** How often `x` occurs. */
  function Times<T(==)>(s: seq<T>, x: T): nat {
    multiset(s)[x]
  }

  ghost function Sum<T>(s: seq<T>, weight: T -> nat): nat
  {
    if s == [] then 0 else Sum(s[..|s| - 1], weight) + weight(s[|s| - 1])
  }

  lemma SumAppend<T>(s: seq<T>, x: T, weight: T -> nat)
    ensures Sum(s + [x], weight) == Sum(s, weight) + weight(x)
  {
    assert (s + [x])[..|s|] == s;
  }

  lemma {:induction false} SumUpdate<T>(s: seq<T>, i: nat, x: T, weight: T -> nat)
    requires i < |s|
    ensures Sum(s[i := x], weight) + weight(s[i]) == Sum(s, weight) + weight(x)
  {
    var n := |s| - 1;
    if i == n {
      assert s[i := x][..n] == s[..n];
    } else {
      assert s[i := x][..n] == s[..n][i := x];
      SumUpdate(s[..n], i, x, weight);
    }
  }

  /** What a goroutine's move from `p` to `p'` adds to a sum when it launches `more`, at most one. */
  function Gain<T>(p: T, p': T, more: seq<T>, weight: T -> nat): int {
    weight(p') - weight(p) + if more == [] then 0 else weight(more[0])
  }

  /** One element replaced and at most one appended. */
  lemma SumMove<T>(procs: seq<T>, i: nat, p: T, more: seq<T>, weight: T -> nat)
    requires i < |procs| && |more| <= 1
    ensures Sum(procs[i := p] + more, weight) == Sum(procs, weight) + Gain(procs[i], p, more, weight)
  {
    SumUpdate(procs, i, p, weight);
    if more == [] {
      assert procs[i := p] + more == procs[i := p];
    } else {
      assert more == [more[0]];
      SumAppend(procs[i := p], more[0], weight);
    }
  }

  /** Two elements replaced. */
  lemma SumMeet<T>(procs: seq<T>, i: nat, p: T, j: nat, q: T, weight: T -> nat)
    requires i < |procs| && j < |procs| && i != j
    ensures Sum(procs[i := p][j := q], weight) + weight(procs[i]) + weight(procs[j])
            == Sum(procs, weight) + weight(p) + weight(q)
  {
    SumUpdate(procs, i, p, weight);
    SumUpdate(procs[i := p], j, q, weight);
  }

  /** A heavier weight has the larger sum. */
  lemma {:induction false} SumMonotone<T>(s: seq<T>, light: T -> nat, heavy: T -> nat)
    requires forall x <- s :: light(x) <= heavy(x)
    ensures Sum(s, light) <= Sum(s, heavy)
  {
    if s != [] {
      SumMonotone(s[..|s| - 1], light, heavy);
    }
  }

  /** One element's weight is part of the sum. */
  lemma {:induction false} SumAtLeast<T>(s: seq<T>, i: nat, weight: T -> nat)
    requires i < |s|
    ensures weight(s[i]) <= Sum(s, weight)
  {
    if i < |s| - 1 {
      SumAtLeast(s[..|s| - 1], i, weight);
    }
  }

  /** Two elements' weights are both part of the sum. */
  lemma {:induction false} SumAtLeastTwo<T>(s: seq<T>, i: nat, j: nat, weight: T -> nat)
    requires i < j < |s|
    ensures weight(s[i]) + weight(s[j]) <= Sum(s, weight)
  {
    if j == |s| - 1 {
      SumAtLeast(s[..j], i, weight);
    } else {
      SumAtLeastTwo(s[..|s| - 1], i, j, weight);
    }
  }

  /** Two elements with weight in a sum of one are the same element. */
  lemma OnlyOne<T>(s: seq<T>, i: nat, j: nat, weight: T -> nat)
    requires i < |s| && j < |s| && weight(s[i]) > 0 && weight(s[j]) > 0 && Sum(s, weight) <= 1
    ensures i == j
  {
    if i < j {
      SumAtLeastTwo(s, i, j, weight);
    } else if j < i {
      SumAtLeastTwo(s, j, i, weight);
    }
  }

  /** A sum is zero exactly when every element weighs nothing. */
  lemma {:induction false} SumZeroExactlyWhen<T>(s: seq<T>, weight: T -> nat)
    ensures Sum(s, weight) == 0 <==> forall x <- s :: weight(x) == 0
  {
    if s != [] {
      var n := |s| - 1;
      SumZeroExactlyWhen(s[..n], weight);
      assert s == s[..n] + [s[n]];
    }
  }

  /** A sum is positive only where some element weighs something. */
  lemma {:induction false} SumWitness<T>(s: seq<T>, weight: T -> nat) returns (i: nat)
    requires Sum(s, weight) > 0
    ensures i < |s| && weight(s[i]) > 0
  {
    i := |s| - 1;
    if weight(s[i]) == 0 {
      i := SumWitness(s[..i], weight);
    }
  }
}
