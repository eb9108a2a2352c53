/**
  Running sums of a probability sequence and the half-open intervals they
  cut out of [0, 1).  Probability i owns the interval [Lo(acc, i), acc[i]),
  and a uniform draw u selects the first index whose running sum exceeds u.
 */
module Cumulative {

  /** Left-to-right sum, as Python's built-in `sum` folds a list from 0. */
  function Sum(ps: seq<real>): real
  {
    if |ps| == 0 then 0.0 else Sum(ps[..|ps| - 1]) + ps[|ps| - 1]
  }

  predicate NonNegative(ps: seq<real>)
  {
    forall i :: 0 <= i < |ps| ==> 0.0 <= ps[i]
  }

  /** Adding an element at the front adds it to the sum. */
  lemma {:induction false} SumCons(a: real, ps: seq<real>)
    ensures Sum([a] + ps) == a + Sum(ps)
    decreases |ps|
  {
    var s := [a] + ps;
    if |ps| == 0 {
      assert s[..|s| - 1] == [];
    } else {
      assert s[..|s| - 1] == [a] + ps[..|ps| - 1];
      SumCons(a, ps[..|ps| - 1]);
    }
  }

  /** A sum of non-negative terms is non-negative. */
  lemma {:induction false} SumNonNegative(ps: seq<real>)
    requires NonNegative(ps)
    ensures 0.0 <= Sum(ps)
    decreases |ps|
  {
    if |ps| > 0 {
      SumNonNegative(ps[..|ps| - 1]);
    }
  }

  /** Every prefix sum of `ps` starting from index 1 is `ps[0]` plus the matching prefix sum of the tail. */
  lemma PrefixSumShift(ps: seq<real>)
    requires |ps| > 0
    ensures forall k :: 1 <= k < |ps| ==> Sum(ps[..k + 1]) == ps[0] + Sum(ps[1..][..k])
  {
    forall k | 1 <= k < |ps|
      ensures Sum(ps[..k + 1]) == ps[0] + Sum(ps[1..][..k])
    {
      assert ps[..k + 1] == [ps[0]] + ps[1..][..k];
      SumCons(ps[0], ps[1..][..k]);
    }
  }

  /**
    The running totals of `ps` starting from `total`, computed one element at
    a time as `itertools.accumulate` does.
   */
  function RunningTotals(ps: seq<real>, total: real): (r: seq<real>)
    ensures |r| == |ps|
    ensures forall k :: 0 <= k < |ps| ==> r[k] == total + Sum(ps[..k + 1])
    decreases |ps|
  {
    if |ps| == 0 then []
    else
      PrefixSumShift(ps);
      assert ps[..1] == [ps[0]];
      assert [ps[0]][..0] == [];
      [total + ps[0]] + RunningTotals(ps[1..], total + ps[0])
  }

  /** The cumulative table: entry k is the sum of the first k + 1 probabilities. */
  function Accumulate(ps: seq<real>): (acc: seq<real>)
    ensures |acc| == |ps|
    ensures forall k :: 0 <= k < |ps| ==> acc[k] == Sum(ps[..k + 1])
    ensures |ps| > 0 ==> acc[|ps| - 1] == Sum(ps)
  {
    assert |ps| > 0 ==> ps[..|ps|] == ps;
    RunningTotals(ps, 0.0)
  }

  /** The lower end of the interval owned by index i. */
  function Lo(acc: seq<real>, i: nat): real
    requires i < |acc|
  {
    if i == 0 then 0.0 else acc[i - 1]
  }

  /** k is the first index whose cumulative entry strictly exceeds u. */
  predicate FirstAbove(acc: seq<real>, u: real, k: int)
  {
    && 0 <= k < |acc|
    && u < acc[k]
    && forall j :: 0 <= j < k ==> acc[j] <= u
  }

  /** The first index exceeding u is unique. */
  lemma FirstAboveUnique(acc: seq<real>, u: real, k: int, m: int)
    requires FirstAbove(acc, u, k) && FirstAbove(acc, u, m)
    ensures k == m
  {
  }

  /** If some entry up to n exceeds u, some index up to n is the first to. */
  lemma {:induction false} FirstExists(acc: seq<real>, u: real, n: nat)
    requires n < |acc| && u < acc[n]
    ensures exists k :: 0 <= k <= n && FirstAbove(acc, u, k)
    decreases n
  {
    if forall j :: 0 <= j < n ==> acc[j] <= u {
      assert FirstAbove(acc, u, n);
    } else {
      var j :| 0 <= j < n && u < acc[j];
      FirstExists(acc, u, j);
    }
  }

  /** Consecutive cumulative entries differ by exactly the probability in between. */
  lemma AccumulateStep(ps: seq<real>, k: nat)
    requires k + 1 < |ps|
    ensures Accumulate(ps)[k + 1] == Accumulate(ps)[k] + ps[k + 1]
  {
    assert ps[..k + 2][..k + 1] == ps[..k + 1];
  }

  /** The width of the interval owned by index i is its probability. */
  lemma IntervalWidth(ps: seq<real>, i: nat)
    requires i < |ps|
    ensures Accumulate(ps)[i] - Lo(Accumulate(ps), i) == ps[i]
  {
    if i == 0 {
      assert ps[..1] == [ps[0]];
      assert [ps[0]][..0] == [];
    } else {
      AccumulateStep(ps, i - 1);
    }
  }

  /** Non-negative probabilities give a non-decreasing cumulative table. */
  lemma {:induction false} AccumulateMonotone(ps: seq<real>, i: nat, j: nat)
    requires NonNegative(ps)
    requires i <= j < |ps|
    ensures Accumulate(ps)[i] <= Accumulate(ps)[j]
    decreases j - i
  {
    if i < j {
      AccumulateStep(ps, j - 1);
      AccumulateMonotone(ps, i, j - 1);
    }
  }

  /**
    For non-negative probabilities and a non-negative draw, index k is the
    first one exceeding u exactly when u falls in k's interval.
   */
  lemma FirstAboveIffInInterval(ps: seq<real>, u: real, k: nat)
    requires NonNegative(ps)
    requires 0.0 <= u
    requires k < |ps|
    ensures FirstAbove(Accumulate(ps), u, k) <==> Lo(Accumulate(ps), k) <= u < Accumulate(ps)[k]
  {
    var acc := Accumulate(ps);
    if Lo(acc, k) <= u < acc[k] {
      forall j | 0 <= j < k
        ensures acc[j] <= u
      {
        AccumulateMonotone(ps, j, k - 1);
      }
    }
  }

  /** A draw u >= 0 never lands in the empty interval of a zero probability. */
  lemma FirstAboveHasPositiveWidth(ps: seq<real>, u: real, k: nat)
    requires NonNegative(ps)
    requires 0.0 <= u
    requires FirstAbove(Accumulate(ps), u, k)
    ensures 0.0 < ps[k]
  {
    FirstAboveIffInInterval(ps, u, k);
    IntervalWidth(ps, k);
  }
}
