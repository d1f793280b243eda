/**
 The concrete scenarios the library's test tables pin down, one lemma per
 operation, each stating the returned value and error.
 */
module PercentCases {
  import opened Resource
  import opened PercentMath

  lemma PercentScenarios()
    ensures Percent(25.0, 100.0) == Ok(25.0)
    ensures Percent(50.0, -200.0) == Ok(-100.0)
    ensures Percent(150.0, 100.0) == Fail(OutOfRange)
  {
  }

  lemma OfScenarios()
    ensures Of(25.0, 100.0) == Ok(25.0)
    ensures Of(-200.0, -50.0) == Ok(400.0)
    ensures Of(150.0, 100.0) == Fail(PartGreaterThanTotal)
    ensures Of(150.0, 0.0) == Fail(DivideByZero)
  {
  }

  lemma ChangeScenarios()
    ensures Change(25.0, 100.0) == Ok(300.0)
    ensures Change(-50.0, -200.0) == Ok(-300.0)
    ensures Change(0.0, 100.0) == Fail(DivideByZero)
  {
  }

  lemma RemainScenarios()
    ensures Remain(25.0, 100.0) == Ok(75.0)
    ensures Remain(50.0, -200.0) == Ok(-100.0)
    ensures Remain(150.0, 100.0) == Fail(OutOfRange)
  {
  }

  lemma FromRatioScenarios()
    ensures FromRatio(0.25) == Ok(25.0)
    ensures FromRatio(2.0) == Fail(OutOfRange)
  {
  }

  lemma ToRatioScenarios()
    ensures ToRatio(50.0) == Ok(0.5)
    ensures ToRatio(150.0) == Fail(OutOfRange)
  {
  }
}
