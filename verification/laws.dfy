/**
 Laws that relate the percentage operations to one another: the order of
 the input checks, the zero that comes with every error, the shared
 validation domain, the complement of `Percent` and `Remain`, the round
 trips between percentages and ratios, and the inverses of `Of` and
 `Change`.
 */
module PercentLaws {
  import opened Resource
  import opened PercentMath

  /** The six operations, for stating laws about all of them at once. */
  datatype Op = PercentOp | OfOp | ChangeOp | RemainOp | FromRatioOp | ToRatioOp

  /** Runs an operation on its arguments; the one-argument operations
      ignore `b`. */
  function Apply(op: Op, a: real, b: real): Outcome {
    match op
    case PercentOp => Percent(a, b)
    case OfOp => Of(a, b)
    case ChangeOp => Change(a, b)
    case RemainOp => Remain(a, b)
    case FromRatioOp => FromRatio(a)
    case ToRatioOp => ToRatio(a)
  }

  /** The checks each operation makes before it computes, in the order it
      makes them. */
  function Validation(op: Op, a: real, b: real): seq<Check> {
    match op
    case PercentOp => [Check(!InPercentRange(a), OutOfRange)]
    case OfOp => [Check(b == 0.0, DivideByZero), Check(a > b, PartGreaterThanTotal)]
    case ChangeOp => [Check(a == 0.0, DivideByZero)]
    case RemainOp => [Check(!InPercentRange(a), OutOfRange)]
    case FromRatioOp => [Check(!InRatioRange(a), OutOfRange)]
    case ToRatioOp => [Check(!InPercentRange(a), OutOfRange)]
  }

  /** Every operation reports the error of the first of its checks that
      fails, in the order above, and reports no error when all pass. */
  lemma ReportsFirstFailedCheck(op: Op, a: real, b: real)
    ensures Apply(op, a, b).err == FirstFailure(Validation(op, a, b))
  {
  }

  /** No operation returns a partial result next to an error: whatever
      the inputs, a failed call carries the value 0. */
  lemma ErrorCarriesZero(op: Op, a: real, b: real)
    ensures Apply(op, a, b).Failed() ==> Apply(op, a, b).value == 0.0
  {
  }

  /** `Percent`, `Remain` and `ToRatio` accept exactly the same percentages,
      whatever the value, and reject the others with the same error. */
  lemma SharedPercentDomain(p: real, v: real, w: real)
    ensures Percent(p, v).err == Remain(p, w).err == ToRatio(p).err
    ensures Percent(p, v).err == (if InPercentRange(p) then None else Some(OutOfRange))
  {
  }

  /** The part taken and the part that remains add up to the whole. */
  lemma Complement(p: real, v: real)
    requires InPercentRange(p)
    ensures !Percent(p, v).Failed() && !Remain(p, v).Failed()
    ensures Percent(p, v).value + Remain(p, v).value == v
  {
  }

  /** Taking a valid percentage of a value never leaves the interval
      between 0 and that value. */
  lemma PercentBetweenZeroAndValue(p: real, v: real)
    requires InPercentRange(p)
    ensures var r := Percent(p, v).value;
      if v >= 0.0 then 0.0 <= r <= v else v <= r <= 0.0
  {
    var q := p / PercentMax;
    assert 0.0 <= q <= 1.0;
    assert Percent(p, v).value == v * q;
    ScaleBetween(v, q);
  }

  /** Scaling by a factor in [0, 1] stays between 0 and the scaled number. */
  lemma ScaleBetween(v: real, q: real)
    requires 0.0 <= q <= 1.0
    ensures if v >= 0.0 then 0.0 <= v * q <= v else v <= v * q <= 0.0
  {
    if v >= 0.0 {
      assert v * q <= v * 1.0;
    } else {
      assert v * 1.0 <= v * q;
    }
  }

  /** A larger percentage takes a larger share of a value that is not
      negative, and a smaller (more negative) share of a negative one. */
  lemma PercentMonotone(p1: real, p2: real, v: real)
    requires 0.0 <= p1 <= p2 <= 100.0
    ensures if v >= 0.0 then Percent(p1, v).value <= Percent(p2, v).value
            else Percent(p2, v).value <= Percent(p1, v).value
  {
    var q1, q2 := p1 / PercentMax, p2 / PercentMax;
    assert q1 <= q2;
    if v >= 0.0 {
      assert v * q1 <= v * q2;
    } else {
      assert v * q2 <= v * q1;
    }
  }

  /** Converting a percentage to a ratio and back gives the percentage. */
  lemma PercentRatioRoundTrip(p: real)
    requires InPercentRange(p)
    ensures !ToRatio(p).Failed() && InRatioRange(ToRatio(p).value)
    ensures FromRatio(ToRatio(p).value) == Ok(p)
  {
  }

  /** Converting a ratio to a percentage and back gives the ratio. */
  lemma RatioPercentRoundTrip(x: real)
    requires InRatioRange(x)
    ensures !FromRatio(x).Failed() && InPercentRange(FromRatio(x).value)
    ensures ToRatio(FromRatio(x).value) == Ok(x)
  {
  }

  /** A zero total is reported as a division by zero whatever the part,
      even a part that exceeds the total. */
  lemma OfZeroTotalWins(part: real)
    ensures Of(part, 0.0) == Fail(DivideByZero)
  {
  }

  /** For a positive total, the share of a part between 0 and the total is
      a valid percentage, and taking that percentage of the total gives
      back the part. */
  lemma OfThenPercent(part: real, total: real)
    requires 0.0 < total && 0.0 <= part <= total
    ensures !Of(part, total).Failed() && InPercentRange(Of(part, total).value)
    ensures Percent(Of(part, total).value, total) == Ok(part)
  {
  }

  /** For a positive total, a valid percentage of the total is a part whose
      share of the total is that percentage. */
  lemma PercentThenOf(p: real, total: real)
    requires InPercentRange(p) && 0.0 < total
    ensures Of(Percent(p, total).value, total) == Ok(p)
  {
  }

  /** For a negative total every accepted part is at least as large in
      magnitude as the total, so `Of` never reports less than 100. */
  lemma OfNegativeTotalAtLeastHundred(part: real, total: real)
    requires total < 0.0
    ensures !Of(part, total).Failed() ==> Of(part, total).value >= PercentMax
  {
  }

  /** The change has the sign of the difference between the new and the old
      value, whatever the sign of the old value. */
  lemma ChangeSign(oldValue: real, newValue: real)
    requires oldValue != 0.0
    ensures var c := Change(oldValue, newValue).value;
      && (c > 0.0 <==> newValue > oldValue)
      && (c < 0.0 <==> newValue < oldValue)
  {
  }

  /** Applying a reported change to the old value gives the new value. */
  lemma ChangeApplied(oldValue: real, newValue: real)
    requires oldValue != 0.0
    ensures oldValue + Abs(oldValue) * Change(oldValue, newValue).value / PercentMax == newValue
  {
  }
}
