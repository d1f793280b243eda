/**
 The percentage math of the library: six stateless conversions between
 percentages, ratios and absolute values. Each operation validates its
 inputs first and, on the first failed check, returns the pair
 (0, sentinel error); otherwise it returns the closed-form result and no
 error. Numbers are exact reals: every integer or floating-point input of
 the original is widened to one number before any computation.
 */
module PercentMath {
  import opened Resource

  datatype Option<+T> = None | Some(value: T)

  /** The Go-style return pair `(float64, error)`. */
  datatype Outcome = Outcome(value: real, err: Option<ErrKind>) {
    predicate Failed() { err.Some? }
  }

  /** A successful return: the value and no error. */
  function Ok(v: real): (r: Outcome)
    ensures !r.Failed() && r.value == v
  {
    Outcome(v, None)
  }

  /** A failed return: the neutral value 0 together with the sentinel. */
  function Fail(k: ErrKind): (r: Outcome)
    ensures r.err == Some(k) && r.value == 0.0
  {
    Outcome(0.0, Some(k))
  }

  /** One input check of an operation: whether it failed, and the error it
      reports if it did. */
  datatype Check = Check(failed: bool, kind: ErrKind)

  /** The error an operation reports after running its checks in order and
      stopping at the first that fails; no error when every check passes. */
  function FirstFailure(checks: seq<Check>): (r: Option<ErrKind>)
    ensures r.None? <==> forall i | 0 <= i < |checks| :: !checks[i].failed
    ensures r.Some? ==>
      exists i | 0 <= i < |checks| ::
        && checks[i].failed && checks[i].kind == r.value
        && forall j | 0 <= j < i :: !checks[j].failed
  {
    if checks == [] then None
    else if checks[0].failed then Some(checks[0].kind)
    else
      var r := FirstFailure(checks[1..]);
      assert forall i | 1 <= i < |checks| :: checks[i] == checks[1..][i - 1];
      r
  }

  /** The domain shared by every argument that is a percentage. */
  predicate InPercentRange(p: real) {
    0.0 <= p <= 100.0
  }

  /** The domain of a ratio. */
  predicate InRatioRange(x: real) {
    0.0 <= x <= 1.0
  }

  /** Absolute value, the counterpart of the standard library's `math.Abs`. */
  function Abs(x: real): (a: real)
    ensures 0.0 <= a && (a == x || a == -x)
  {
    if x < 0.0 then -x else x
  }

  /** `percent` percent of `value`. */
  function Percent(percent: real, value: real): (r: Outcome)
    ensures r.Failed() <==> !InPercentRange(percent)
    ensures r.Failed() ==> r == Fail(OutOfRange)
    ensures !r.Failed() ==> r.value * PercentMax == value * percent
  {
    if percent < 0.0 || percent > 100.0 then
      Fail(OutOfRange)
    else
      Ok(value * (percent / PercentMax))
  }

  /** The percentage that `part` makes of `total`. A zero total is reported
      before a part that exceeds the total is. */
  function Of(part: real, total: real): (r: Outcome)
    ensures total == 0.0 ==> r == Fail(DivideByZero)
    ensures total != 0.0 && part > total ==> r == Fail(PartGreaterThanTotal)
    ensures r.Failed() <==> total == 0.0 || part > total
    ensures !r.Failed() ==> r.value * total == part * PercentMax
  {
    if total == 0.0 then
      Fail(DivideByZero)
    else if part > total then
      Fail(PartGreaterThanTotal)
    else
      Ok(part / total * PercentMax)
  }

  /** The percentage change from `oldValue` to `newValue`, measured against
      the magnitude of `oldValue`. */
  function Change(oldValue: real, newValue: real): (r: Outcome)
    ensures r.Failed() <==> oldValue == 0.0
    ensures r.Failed() ==> r == Fail(DivideByZero)
    ensures !r.Failed() ==> r.value * Abs(oldValue) == (newValue - oldValue) * PercentMax
  {
    if oldValue == 0.0 then
      Fail(DivideByZero)
    else
      Ok((newValue - oldValue) / Abs(oldValue) * PercentMax)
  }

  /** What is left of `value` once `percent` percent of it is taken away. */
  function Remain(percent: real, value: real): (r: Outcome)
    ensures r.Failed() <==> !InPercentRange(percent)
    ensures r.Failed() ==> r == Fail(OutOfRange)
    ensures !r.Failed() ==> r.value * PercentMax == value * (PercentMax - percent)
  {
    if percent < 0.0 || percent > 100.0 then
      Fail(OutOfRange)
    else
      Ok(value * ((PercentMax - percent) / PercentMax))
  }

  /** The percentage a ratio in [0, 1] stands for. */
  function FromRatio(ratio: real): (r: Outcome)
    ensures r.Failed() <==> !InRatioRange(ratio)
    ensures r.Failed() ==> r == Fail(OutOfRange)
    ensures !r.Failed() ==> InPercentRange(r.value) && r.value / PercentMax == ratio
  {
    if ratio < 0.0 || ratio > 1.0 then
      Fail(OutOfRange)
    else
      Ok(ratio * PercentMax)
  }

  /** The ratio a percentage in [0, 100] stands for. */
  function ToRatio(percent: real): (r: Outcome)
    ensures r.Failed() <==> !InPercentRange(percent)
    ensures r.Failed() ==> r == Fail(OutOfRange)
    ensures !r.Failed() ==> InRatioRange(r.value) && r.value * PercentMax == percent
  {
    if percent < 0.0 || percent > 100.0 then
      Fail(OutOfRange)
    else
      Ok(percent / PercentMax)
  }
}
