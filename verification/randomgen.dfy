/**
  The RandomGen weighted sampler: `init_generator` validates a mapping from
  outcomes to probabilities and stores it together with its cumulative table;
  `next_num` maps a uniform draw u in [0, 1) to the first outcome whose
  cumulative probability exceeds u.

  The class-level attributes of the sampler are an explicit `State` value,
  the draw is a parameter, and probabilities are exact reals.
 */
module RandomGen {
  import opened Cumulative

  /** A Python value as far as the sampler can tell: a number, or anything else. */
  datatype Value = Num(x: real) | NonNum

  datatype Option<T> = None | Some(value: T)

  /** The three `ValueError`s `init_generator` raises, in the order it checks for them. */
  datatype Error = NonNumeric | OutOfRange | BadSum

  /** What a call of `init_generator` ends with: returning None, or raising. */
  datatype Outcome = Ok | Raised(error: Error)

  /** The class attributes `_random_nums`, `_probabilities` and `_acc_prob`. */
  datatype State = State(nums: seq<Value>, probs: seq<Value>, acc: seq<real>)

  /** The sampler after an `init_generator` call, and how the call ended. */
  datatype Step = Step(after: State, outcome: Outcome)

  /**
    What `next_num` does: return the outcome at `index`, fall off the end of
    its loop (returning None), or index past the end of `_acc_prob`.
   */
  datatype Draw = Drawn(index: nat, value: Value) | NoValue | IndexError

  /** One mapping entry: an outcome and its probability, in insertion order. */
  type Entry = (Value, Value)

  /** The class attributes before any `init_generator` call: three empty lists. */
  const Initial: State := State([], [], [])

  /** `math.isclose`'s default relative tolerance, 1e-9. */
  const RelTol: real := 0.000000001

  /** `sys.float_info.epsilon`, 2^-52, passed as the absolute tolerance. */
  const AbsTol: real := 1.0 / 4503599627370496.0

  function Abs(x: real): real
  {
    if x < 0.0 then -x else x
  }

  /** `math.isclose(a, b, abs_tol=AbsTol)` on finite values, as CPython computes it. */
  predicate IsClose(a: real, b: real)
  {
    || a == b
    || Abs(b - a) <= Abs(RelTol * b)
    || Abs(b - a) <= Abs(RelTol * a)
    || Abs(b - a) <= AbsTol
  }

  /** A sum accepted as close to 1 is no more than 1e-9 below 1, and so is positive. */
  lemma CloseToOneBounds(sum: real)
    requires IsClose(sum, 1.0)
    ensures 1.0 - RelTol <= sum
    ensures 0.0 < sum
  {
  }

  /** Zero, the sum of an empty mapping, is not close to 1. */
  lemma ZeroNotCloseToOne()
    ensures !IsClose(0.0, 1.0)
  {
  }

  predicate AllNumeric(vs: seq<Value>)
  {
    forall i :: 0 <= i < |vs| ==> vs[i].Num?
  }

  /** The comparison `1 >= item >= 0`, applied to a number. */
  predicate InUnit(v: Value)
    requires v.Num?
  {
    1.0 >= v.x >= 0.0
  }

  predicate AllInUnit(vs: seq<Value>)
    requires AllNumeric(vs)
  {
    forall i :: 0 <= i < |vs| ==> InUnit(vs[i])
  }

  /** The numbers held by a list of numeric values. */
  function Reals(vs: seq<Value>): (r: seq<real>)
    requires AllNumeric(vs)
    ensures |r| == |vs|
    ensures forall i :: 0 <= i < |vs| ==> vs[i] == Num(r[i])
  {
    seq(|vs|, i requires 0 <= i < |vs| => vs[i].x)
  }

  /** A missing mapping (`gen is None`) is the empty mapping. */
  function Entries(gen: Option<seq<Entry>>): seq<Entry>
  {
    if gen.None? then [] else gen.value
  }

  function Keys(pairs: seq<Entry>): (ks: seq<Value>)
    ensures |ks| == |pairs|
    ensures forall i :: 0 <= i < |pairs| ==> ks[i] == pairs[i].0
  {
    seq(|pairs|, i requires 0 <= i < |pairs| => pairs[i].0)
  }

  function Values(pairs: seq<Entry>): (vs: seq<Value>)
    ensures |vs| == |pairs|
    ensures forall i :: 0 <= i < |pairs| ==> vs[i] == pairs[i].1
  {
    seq(|pairs|, i requires 0 <= i < |pairs| => pairs[i].1)
  }

  /** The three checks of `init_generator`, in the order the source runs them. */
  function Validate(nums: seq<Value>, probs: seq<Value>): Outcome
  {
    if !AllNumeric(nums + probs) then Raised(NonNumeric)
    else
      assert forall i :: 0 <= i < |probs| ==> probs[i] == (nums + probs)[|nums| + i];
      if !AllInUnit(probs) then Raised(OutOfRange)
      else if !IsClose(Sum(Reals(probs)), 1.0) then Raised(BadSum)
      else Ok
  }

  /*
    Vocabulary for the contract of Init, phrased over the mapping entries
    rather than over the lists the source builds from them.
   */

  predicate NumericEntries(pairs: seq<Entry>)
  {
    forall i :: 0 <= i < |pairs| ==> pairs[i].0.Num? && pairs[i].1.Num?
  }

  predicate ProbabilitiesInUnit(pairs: seq<Entry>)
    requires NumericEntries(pairs)
  {
    forall i :: 0 <= i < |pairs| ==> 0.0 <= pairs[i].1.x <= 1.0
  }

  function Probabilities(pairs: seq<Entry>): (ps: seq<real>)
    requires NumericEntries(pairs)
    ensures |ps| == |pairs|
    ensures forall i :: 0 <= i < |pairs| ==> pairs[i].1 == Num(ps[i])
  {
    seq(|pairs|, i requires 0 <= i < |pairs| => pairs[i].1.x)
  }

  /** A mapping that passes every check of `init_generator`. */
  predicate ValidEntries(pairs: seq<Entry>)
  {
    && NumericEntries(pairs)
    && ProbabilitiesInUnit(pairs)
    && IsClose(Sum(Probabilities(pairs)), 1.0)
  }

  /**
    `init_generator(gen)`. The outcome and probability lists are overwritten
    with the mapping's entries before any check runs, so they change even when
    a check raises; the cumulative table is assigned only after every check
    passed, so a raising call leaves it as it was.
   */
  function Init(s: State, gen: Option<seq<Entry>>): (r: Step)
    // the lists always hold the mapping's entries in insertion order
    ensures |r.after.nums| == |Entries(gen)| == |r.after.probs|
    ensures forall i :: 0 <= i < |Entries(gen)| ==>
              r.after.nums[i] == Entries(gen)[i].0 && r.after.probs[i] == Entries(gen)[i].1
    // the checks, in order: non-numeric first, then range, then sum
    ensures r.outcome == Raised(NonNumeric) <==> !NumericEntries(Entries(gen))
    ensures r.outcome == Raised(OutOfRange) <==>
              NumericEntries(Entries(gen)) && !ProbabilitiesInUnit(Entries(gen))
    ensures r.outcome == Raised(BadSum) <==>
              && NumericEntries(Entries(gen))
              && ProbabilitiesInUnit(Entries(gen))
              && !IsClose(Sum(Probabilities(Entries(gen))), 1.0)
    ensures r.outcome == Ok <==> ValidEntries(Entries(gen))
    // no mapping and the empty mapping fail the sum check
    ensures Entries(gen) == [] ==> r.outcome == Raised(BadSum)
    // a raising call leaves the cumulative table alone
    ensures r.outcome.Raised? ==> r.after.acc == s.acc
    // a returning call stores the running sums of the probabilities
    ensures r.outcome == Ok ==>
              && |r.after.acc| == |Entries(gen)|
              && forall k :: 0 <= k < |Entries(gen)| ==>
                   r.after.acc[k] == Sum(Probabilities(Entries(gen))[..k + 1])
  {
    var pairs := Entries(gen);
    var nums := Keys(pairs);
    var probs := Values(pairs);
    var outcome := Validate(nums, probs);
    assert AllNumeric(nums + probs) <==> NumericEntries(pairs) by {
      if AllNumeric(nums + probs) {
        forall i | 0 <= i < |pairs|
          ensures pairs[i].0.Num? && pairs[i].1.Num?
        {
          assert (nums + probs)[i] == nums[i];
          assert (nums + probs)[|nums| + i] == probs[i];
        }
      }
    }
    if NumericEntries(pairs) then
      assert Reals(probs) == Probabilities(pairs);
      ZeroNotCloseToOne();
      if outcome.Ok? then
        Step(State(nums, probs, Accumulate(Reals(probs))), Ok)
      else
        Step(State(nums, probs, s.acc), outcome)
    else
      Step(State(nums, probs, s.acc), outcome)
  }

  /**
    A state holding a configuration `init_generator` accepted: aligned lists
    of numeric outcomes and probabilities in [0, 1] summing close to 1, and
    the running sums of those probabilities as its cumulative table.
   */
  predicate Accepted(s: State)
  {
    && |s.nums| == |s.probs|
    && AllNumeric(s.nums)
    && AllNumeric(s.probs)
    && AllInUnit(s.probs)
    && IsClose(Sum(Reals(s.probs)), 1.0)
    && s.acc == Accumulate(Reals(s.probs))
  }

  /** A returning `init_generator` call leaves the sampler in an accepted state. */
  lemma InitOkAccepted(s: State, gen: Option<seq<Entry>>)
    requires Init(s, gen).outcome == Ok
    ensures Accepted(Init(s, gen).after)
    ensures Init(s, gen).after.nums == Keys(Entries(gen))
  {
  }

  /**
    The cumulative table of an accepted configuration is non-empty and
    non-decreasing, and its last entry is close to 1.
   */
  lemma AcceptedTable(s: State)
    requires Accepted(s)
    ensures 0 < |s.acc| == |s.nums|
    ensures IsClose(s.acc[|s.acc| - 1], 1.0)
    ensures forall i, j :: 0 <= i <= j < |s.acc| ==> s.acc[i] <= s.acc[j]
  {
    AcceptedNonEmpty(s);
    forall i, j | 0 <= i <= j < |s.acc|
      ensures s.acc[i] <= s.acc[j]
    {
      AccumulateMonotone(Reals(s.probs), i, j);
    }
  }

  /** An accepted configuration has at least one outcome. */
  lemma AcceptedNonEmpty(s: State)
    requires Accepted(s)
    ensures 0 < |s.nums| == |s.acc|
  {
  }

  /**
    The loop of `next_num` from index i on. Every earlier cumulative entry
    was at most u, or the loop would have returned already.
   */
  function Scan(nums: seq<Value>, acc: seq<real>, u: real, i: nat): (r: Draw)
    requires i <= |nums| && i <= |acc|
    requires forall j :: 0 <= j < i ==> acc[j] <= u
    ensures r.Drawn? ==> i <= r.index < |nums| && r.value == nums[r.index] && FirstAbove(acc, u, r.index)
    ensures r.NoValue? <==> |nums| <= |acc| && forall j :: 0 <= j < |nums| ==> acc[j] <= u
    ensures r.IndexError? <==> |acc| < |nums| && forall j :: 0 <= j < |acc| ==> acc[j] <= u
    decreases |nums| - i
  {
    if i == |nums| then NoValue
    else if i == |acc| then IndexError
    else if u < acc[i] then Drawn(i, nums[i])
    else Scan(nums, acc, u, i + 1)
  }

  /**
    `next_num` with the draw `random.random()` given as u: the first outcome
    whose cumulative probability strictly exceeds u.
   */
  function NextNum(s: State, u: real): (r: Draw)
    requires 0.0 <= u < 1.0
    ensures r.Drawn? <==> exists k :: 0 <= k < |s.nums| && FirstAbove(s.acc, u, k)
    ensures r.Drawn? ==> r.index < |s.nums| && r.value == s.nums[r.index] && FirstAbove(s.acc, u, r.index)
    ensures r.NoValue? <==> |s.nums| <= |s.acc| && forall j :: 0 <= j < |s.nums| ==> s.acc[j] <= u
    ensures r.IndexError? <==> |s.acc| < |s.nums| && forall j :: 0 <= j < |s.acc| ==> s.acc[j] <= u
  {
    Scan(s.nums, s.acc, u, 0)
  }

  /** `next_num` returns the outcome at k exactly when k is the first index whose cumulative entry exceeds u. */
  lemma NextNumIffFirstAbove(s: State, u: real, k: nat)
    requires 0.0 <= u < 1.0
    requires k < |s.nums|
    ensures NextNum(s, u) == Drawn(k, s.nums[k]) <==> FirstAbove(s.acc, u, k)
  {
    if FirstAbove(s.acc, u, k) {
      FirstAboveUnique(s.acc, u, k, NextNum(s, u).index);
    }
  }

  /**
    On an accepted configuration, `next_num` returns the outcome at k exactly
    when u lies in k's interval [Lo, acc[k]), whose width is k's probability.
   */
  lemma NextNumInInterval(s: State, u: real, k: nat)
    requires Accepted(s)
    requires 0.0 <= u < 1.0
    requires k < |s.nums|
    ensures NextNum(s, u) == Drawn(k, s.nums[k]) <==> Lo(s.acc, k) <= u < s.acc[k]
    ensures s.acc[k] - Lo(s.acc, k) == s.probs[k].x
  {
    var ps := Reals(s.probs);
    NextNumIffFirstAbove(s, u, k);
    FirstAboveIffInInterval(ps, u, k);
    IntervalWidth(ps, k);
  }

  /** On an accepted configuration, an outcome `next_num` returns has a positive probability. */
  lemma NextNumNeverZeroProbability(s: State, u: real)
    requires Accepted(s)
    requires 0.0 <= u < 1.0
    ensures NextNum(s, u).Drawn? ==> 0.0 < s.probs[NextNum(s, u).index].x
  {
    var r := NextNum(s, u);
    if r.Drawn? {
      FirstAboveHasPositiveWidth(Reals(s.probs), u, r.index);
    }
  }

  /**
    On an accepted configuration and a draw below the last cumulative entry,
    `next_num` returns an outcome of the configuration with a positive
    probability. The last entry may fall short of 1 by the tolerance, so the
    draws in [acc[last], 1) are not covered.
   */
  lemma NextNumInSupport(s: State, u: real)
    requires Accepted(s)
    requires 0.0 <= u < 1.0
    requires |s.acc| > 0 && u < s.acc[|s.acc| - 1]
    ensures NextNum(s, u).Drawn?
    ensures NextNum(s, u).value in s.nums
    ensures 0.0 < s.probs[NextNum(s, u).index].x
  {
    AcceptedNonEmpty(s);
    FirstExists(s.acc, u, |s.acc| - 1);
    NextNumNeverZeroProbability(s, u);
  }

  /**
    On an accepted configuration every draw below 1 - 1e-9 returns an outcome:
    the accepted sum is at least that large.
   */
  lemma NextNumTotalBelowTolerance(s: State, u: real)
    requires Accepted(s)
    requires 0.0 <= u < 1.0 - RelTol
    ensures NextNum(s, u).Drawn?
  {
  }
}
