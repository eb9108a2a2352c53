/**
  The model's verdict on the mappings at tests/test_randomgen.py:25, 28 and
  41-44: the invalid ones raise the error of the first check they fail, the
  one at line 25 is accepted, and for the one at line 28 every draw returns
  its only outcome with a positive probability.
 */
module Scenarios {
  import opened Cumulative
  import opened RandomGen

  /** {-1: 0.01, 0: 0.3, 1: 0.58, 2: 0.1, 3: 0.1} sums to 1.09 and is rejected by the sum check. */
  lemma SumTooLargeRejected()
    ensures Init(Initial, Some([(Num(-1.0), Num(0.01)), (Num(0.0), Num(0.3)), (Num(1.0), Num(0.58)),
                                (Num(2.0), Num(0.1)), (Num(3.0), Num(0.1))])).outcome == Raised(BadSum)
  {
  }

  /** {-1: 0.01, 0: 0.5, 1: 0.58, 2: -0.1, 3: 0.01} holds a negative probability and is rejected by the range check. */
  lemma NegativeProbabilityRejected()
    ensures Init(Initial, Some([(Num(-1.0), Num(0.01)), (Num(0.0), Num(0.5)), (Num(1.0), Num(0.58)),
                                (Num(2.0), Num(-0.1)), (Num(3.0), Num(0.01))])).outcome == Raised(OutOfRange)
  {
  }

  /**
    {-1: 0.01, 0: 0.3, 1: "0.58", 2: 0.1, 3: 0.01} (a string probability) and
    {-1: 0.01, 0: 0.3, 1: 0.58, 2: 0.1, "3": 0.01} (a string outcome) are
    rejected by the numeric check, before the range and sum checks run.
   */
  lemma NonNumericRejected()
    ensures Init(Initial, Some([(Num(-1.0), Num(0.01)), (Num(0.0), Num(0.3)), (Num(1.0), NonNum),
                                (Num(2.0), Num(0.1)), (Num(3.0), Num(0.01))])).outcome == Raised(NonNumeric)
    ensures Init(Initial, Some([(Num(-1.0), Num(0.01)), (Num(0.0), Num(0.3)), (Num(1.0), Num(0.58)),
                                (Num(2.0), Num(0.1)), (NonNum, Num(0.01))])).outcome == Raised(NonNumeric)
  {
    var g1 := [(Num(-1.0), Num(0.01)), (Num(0.0), Num(0.3)), (Num(1.0), NonNum),
               (Num(2.0), Num(0.1)), (Num(3.0), Num(0.01))];
    var g2 := [(Num(-1.0), Num(0.01)), (Num(0.0), Num(0.3)), (Num(1.0), Num(0.58)),
               (Num(2.0), Num(0.1)), (NonNum, Num(0.01))];
    assert !g1[2].1.Num?;
    assert !g2[4].0.Num?;
  }

  /** {-1: 0.01, 0: 0.3, 1: 0.58, 2: 0.1, 3: 0.01} is accepted. */
  lemma FiveOutcomesAccepted()
    ensures Init(Initial, Some([(Num(-1.0), Num(0.01)), (Num(0.0), Num(0.3)), (Num(1.0), Num(0.58)),
                                (Num(2.0), Num(0.1)), (Num(3.0), Num(0.01))])).outcome == Ok
  {
    var g := [(Num(-1.0), Num(0.01)), (Num(0.0), Num(0.3)), (Num(1.0), Num(0.58)),
              (Num(2.0), Num(0.1)), (Num(3.0), Num(0.01))];
    var ps := [0.01, 0.3, 0.58, 0.1, 0.01];
    assert Probabilities(g) == ps;
    assert Sum(ps) == 1.0 by {
      SumCons(0.01, []);
      assert [0.01] + [] == [0.01];
      SumCons(0.1, [0.01]);
      assert [0.1] + [0.01] == [0.1, 0.01];
      SumCons(0.58, [0.1, 0.01]);
      assert [0.58] + [0.1, 0.01] == [0.58, 0.1, 0.01];
      SumCons(0.3, [0.58, 0.1, 0.01]);
      assert [0.3] + [0.58, 0.1, 0.01] == [0.3, 0.58, 0.1, 0.01];
      SumCons(0.01, [0.3, 0.58, 0.1, 0.01]);
      assert [0.01] + [0.3, 0.58, 0.1, 0.01] == ps;
    }
  }

  /**
    {-1: 1.0, 1: 0.0, 2: 0} is accepted, and every draw in [0, 1) returns -1:
    the zero-probability outcomes are never drawn.
   */
  lemma CertainOutcomeAlwaysDrawn(u: real)
    requires 0.0 <= u < 1.0
    ensures var r := Init(Initial, Some([(Num(-1.0), Num(1.0)), (Num(1.0), Num(0.0)), (Num(2.0), Num(0.0))]));
            && r.outcome == Ok
            && NextNum(r.after, u) == Drawn(0, Num(-1.0))
  {
    var g := [(Num(-1.0), Num(1.0)), (Num(1.0), Num(0.0)), (Num(2.0), Num(0.0))];
    var ps := [1.0, 0.0, 0.0];
    assert Probabilities(g) == ps;
    assert ps[..1] == [1.0];
    assert Sum(ps) == 1.0 by {
      SumCons(0.0, []);
      SumCons(0.0, [0.0]);
      SumCons(1.0, [0.0, 0.0]);
    }
    var r := Init(Initial, Some(g));
    assert r.after.acc[0] == 1.0;
    assert FirstAbove(r.after.acc, u, 0);
  }
}
