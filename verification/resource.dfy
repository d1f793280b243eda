/**
 The shared resources of the percentage library: the three sentinel errors
 the operations report, their fixed messages, and the scale constant that
 stands for "100%".
 */
module Resource {

  /** The scale of a percentage: 100% as a number. */
  const PercentMax: real := 100.0

  /** Prefix shared by every error message of the library. */
  const MessagePrefix: string := "pkg percent: "

  /** The three sentinel errors. Each is one fixed value that callers compare
      by equality; no error is built per call. */
  datatype ErrKind =
    | OutOfRange            // a percentage or ratio outside its domain
    | DivideByZero          // a zero denominator
    | PartGreaterThanTotal  // the part exceeds the total

  /** The message of each sentinel error: the library prefix followed by
      what went wrong. */
  const OutOfRangeErrorMessage: string := MessagePrefix + "out of the range"
  const DivideByZeroErrorMessage: string := MessagePrefix + "division by zero"
  const PartGreaterThanTotalErrorMessage: string := MessagePrefix + "part cannot be greater than total"

  /** The message carried by each sentinel error. Every message starts with
      the library prefix. */
  function Message(k: ErrKind): (m: string)
    ensures |MessagePrefix| < |m| && m[..|MessagePrefix|] == MessagePrefix
  {
    match k
    case OutOfRange => OutOfRangeErrorMessage
    case DivideByZero => DivideByZeroErrorMessage
    case PartGreaterThanTotal => PartGreaterThanTotalErrorMessage
  }

  /** Distinct errors read differently: a caller that only sees the message
      can still tell which check failed. */
  lemma MessageInjective(a: ErrKind, b: ErrKind)
    ensures Message(a) == Message(b) <==> a == b
  {
  }
}
