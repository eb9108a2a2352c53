/**
  Two places where `randomgen.py` does not keep a promise made for it, each
  modelled as written (with an input that exhibits the discrepancy) and
  corrected (with the intended property proved).

  1. A raising `init_generator` has already overwritten the outcome and
     probability lists, while the cumulative table keeps its old value, so a
     later `next_num` draws from the rejected mapping or indexes past the end
     of the table.
  2. A probability sum up to 1e-9 below 1 is accepted, and a draw above it
     falls off the end of the `next_num` loop, returning None. The docstring
     calls `next_num` equivalent to `random.choices`, which scales the draw by
     the total and therefore never falls through.
 */
module Findings {
  import opened Cumulative
  import opened RandomGen

  /** The sampler is unconfigured or holds a configuration that was accepted. */
  predicate Consistent(s: State)
  {
    s == Initial || Accepted(s)
  }

  /** On a consistent sampler `next_num` never indexes past the cumulative table. */
  lemma ConsistentNeverIndexError(s: State, u: real)
    requires Consistent(s)
    requires 0.0 <= u < 1.0
    ensures !NextNum(s, u).IndexError?
  {
  }

  /*
    Finding 1, as written: a mapping rejected first thing after start-up
    leaves one outcome with an empty cumulative table.
   */
  lemma RejectedInitLeavesStaleTable()
    ensures Init(Initial, Some([(Num(5.0), Num(2.0))])).outcome == Raised(OutOfRange)
    ensures !Consistent(Init(Initial, Some([(Num(5.0), Num(2.0))])).after)
    ensures NextNum(Init(Initial, Some([(Num(5.0), Num(2.0))])).after, 0.5) == IndexError
  {
  }

  /** {-1: 1.0} is accepted from start-up, giving the table [1.0]. */
  lemma CertainOutcomeConfigured()
    ensures Init(Initial, Some([(Num(-1.0), Num(1.0))])) == Step(State([Num(-1.0)], [Num(1.0)], [1.0]), Ok)
  {
    assert Probabilities([(Num(-1.0), Num(1.0))]) == [1.0];
    assert [1.0][..1] == [1.0];
  }

  /*
    Finding 1, as written: after {-1: 1.0} was accepted, the rejected mapping
    {5: 0.5, 6: 0.6} still supplies the outcome `next_num` returns.
   */
  lemma RejectedInitSuppliesDraws()
    ensures var s1 := Init(Initial, Some([(Num(-1.0), Num(1.0))]));
            var s2 := Init(s1.after, Some([(Num(5.0), Num(0.5)), (Num(6.0), Num(0.6))]));
            && s1.outcome == Ok
            && s2.outcome == Raised(BadSum)
            && NextNum(s2.after, 0.2) == Drawn(0, Num(5.0))
            && Num(5.0) !in s1.after.nums
  {
    CertainOutcomeConfigured();
    var g2 := [(Num(5.0), Num(0.5)), (Num(6.0), Num(0.6))];
    assert Probabilities(g2) == [0.5, 0.6];
    assert Sum([0.5, 0.6]) == 1.1 by {
      assert [0.5, 0.6][..1] == [0.5];
    }
    var s2 := Init(State([Num(-1.0)], [Num(1.0)], [1.0]), Some(g2));
    assert s2.outcome == Raised(BadSum);
    assert s2.after == State([Num(5.0), Num(6.0)], [Num(0.5), Num(0.6)], [1.0]);
  }

  /**
    Finding 1, corrected: validate first, and commit the mapping only when
    every check passes, so a raising call leaves the sampler as it was.
   */
  function InitAtomic(s: State, gen: Option<seq<Entry>>): (r: Step)
    ensures r.outcome == Init(s, gen).outcome
    ensures r.outcome.Raised? ==> r.after == s
    ensures r.outcome == Ok ==> r.after == Init(s, gen).after
    ensures Consistent(s) ==> Consistent(r.after)
  {
    var step := Init(s, gen);
    if step.outcome == Ok then
      InitOkAccepted(s, gen);
      step
    else
      Step(s, step.outcome)
  }

  /** The sampler after a series of corrected `init_generator` calls. */
  function InitAll(s: State, gens: seq<Option<seq<Entry>>>): State
    decreases |gens|
  {
    if |gens| == 0 then s else InitAll(InitAtomic(s, gens[0]).after, gens[1..])
  }

  /** Consistency is kept by every sequence of corrected `init_generator` calls. */
  lemma {:induction false} InitAtomicSequenceConsistent(s: State, gens: seq<Option<seq<Entry>>>)
    requires Consistent(s)
    ensures Consistent(InitAll(s, gens))
    decreases |gens|
  {
    if |gens| > 0 {
      InitAtomicSequenceConsistent(InitAtomic(s, gens[0]).after, gens[1..]);
    }
  }

  /*
    Finding 2, as written: {1: 0.9999999999} is accepted, and the draw
    0.99999999995 lies above its only cumulative entry.
   */
  lemma AcceptedShortSumFallsThrough()
    ensures Init(Initial, Some([(Num(1.0), Num(0.9999999999))])).outcome == Ok
    ensures NextNum(Init(Initial, Some([(Num(1.0), Num(0.9999999999))])).after, 0.99999999995) == NoValue
  {
  }

  /** The last cumulative entry, the total weight `random.choices` scales by. */
  function Total(acc: seq<real>): real
  {
    if |acc| == 0 then 0.0 else acc[|acc| - 1]
  }

  /** An accepted configuration has a positive total weight. */
  lemma AcceptedTotalPositive(s: State)
    requires Accepted(s)
    ensures 0 < |s.acc| && 0.0 < Total(s.acc)
    ensures NonNegative(Reals(s.probs))
  {
  }

  /** A draw in [0, 1) times a positive total lies in [0, total). */
  lemma StretchBelowTotal(u: real, total: real)
    requires 0.0 <= u < 1.0
    ensures 0.0 < total ==> 0.0 <= u * total < total
  {
  }

  /** The draw u in [0, 1) stretched over [0, total), as `random.choices` stretches it. */
  function Stretch(u: real, total: real): (v: real)
    requires 0.0 <= u < 1.0
    ensures 0.0 < total ==> 0.0 <= v < total
  {
    StretchBelowTotal(u, total);
    u * total
  }

  /**
    On an accepted configuration, the scan for the stretched draw stops at the
    first index above it, and that index has a positive probability.
   */
  lemma ScaledScanDraws(s: State, u: real)
    requires 0.0 <= u < 1.0
    ensures var v := Stretch(u, Total(s.acc));
            var r := Scan(s.nums, s.acc, v, 0);
            Accepted(s) ==>
              && r.Drawn?
              && r.index < |s.nums|
              && FirstAbove(s.acc, v, r.index)
              && 0.0 < s.probs[r.index].x
  {
    if Accepted(s) {
      var v := Stretch(u, Total(s.acc));
      AcceptedTotalPositive(s);
      FirstExists(s.acc, v, |s.acc| - 1);
      var r := Scan(s.nums, s.acc, v, 0);
      FirstAboveHasPositiveWidth(Reals(s.probs), v, r.index);
    }
  }

  /**
    Finding 2, corrected: scale the draw by the total before the scan, as
    `random.choices` does. On an accepted configuration every draw in [0, 1)
    then yields the first outcome whose cumulative entry exceeds the scaled
    draw, and that outcome has a positive probability.
   */
  function NextNumScaled(s: State, u: real): (r: Draw)
    requires 0.0 <= u < 1.0
    ensures Accepted(s) ==> r.Drawn? && r.index < |s.nums| && r.value == s.nums[r.index] && 0.0 < s.probs[r.index].x
    ensures Accepted(s) ==> FirstAbove(s.acc, Stretch(u, Total(s.acc)), r.index)
  {
    ScaledScanDraws(s, u);
    Scan(s.nums, s.acc, Stretch(u, Total(s.acc)), 0)
  }

  /** When the cumulative table ends at exactly 1, scaling changes no draw. */
  lemma NextNumScaledAgreesOnExactTotal(s: State, u: real)
    requires 0.0 <= u < 1.0
    requires |s.acc| > 0 && s.acc[|s.acc| - 1] == 1.0
    ensures NextNumScaled(s, u) == NextNum(s, u)
  {
    assert Stretch(u, 1.0) == u;
  }
}
