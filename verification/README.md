# Percentage math, modelled in Dafny

A model of the `percent` library: six stateless conversions between
percentages, ratios and absolute values (`Percent`, `Of`, `Change`,
`Remain`, `FromRatio`, `ToRatio`) and the three sentinel errors they report
(`ErrOutOfRange`, `ErrDivideByZero`, `ErrPartGreaterThanTotal`).

Each operation checks its inputs in the order the library does and, on the
first failed check, returns the pair `(0, sentinel)`; otherwise it returns
the closed-form result with no error. The Go return pair `(float64, error)`
is the datatype `PercentMath.Outcome(value, err)`, so "a failed call carries
0" is a property proved of every operation rather than built into the type.

- `resource.dfy` — module `Resource`: the `ErrKind` datatype (one constructor
  per sentinel), the message of each, and the scale constant `PercentMax`
  (100).
- `percent.dfy` — module `PercentMath`: the six operations, each with a
  contract that states when it fails, with which error, and what its result
  means (an equation relating it to the inputs).
- `laws.dfy` — module `PercentLaws`: laws that relate the operations — the
  order of the input checks (each operation reports its first failed check,
  as `PercentMath.FirstFailure` defines it), the zero that comes with every
  error, the shared domain, the complement of `Percent` and `Remain`, both ratio round
  trips, `Percent` and `Of` undoing each other, monotonicity of `Percent`, the sign and the inverse of `Change`.
- `cases.dfy` — module `PercentCases`: the concrete scenarios of the
  library's test tables.

Numbers are exact `real`s. The library is generic over every integer and
floating-point type and widens each input to `float64` before computing; an
integer embeds exactly into the reals, so the type parameter collapses to
`real`. `math.Abs` is the Dafny function `PercentMath.Abs`.

The sentinels are package-level values made once with `errors.New` and
compared by identity; here they are the constructors of `Resource.ErrKind`,
compared by datatype equality, and their messages are the constants
`Resource.OutOfRangeErrorMessage` and its two siblings, with the same text as
`internal/pkg/resource/strings.go`.

`resource.PercentMax` is used throughout `pkg/percent/percent.go` but its
definition is not part of this model; it is taken to be 100, the value the
test tables rely on (`Percent(25, 100) = 25`, `ToRatio(50) = 0.5`) and the
literal the range checks use.

## Model

| member | source | states |
|---|---|---|
| Resource.Message | internal/pkg/resource/errors.go:9-13 | every sentinel's message starts with the library prefix "pkg percent: " and is longer than it |
| Resource.MessageInjective | internal/pkg/resource/errors.go:9-13 | two sentinels have the same message exactly when they are the same error, so callers can tell them apart |
| PercentMath.Percent | pkg/percent/percent.go:33-39 | fails exactly when the percentage lies outside [0, 100], then with OutOfRange and value 0; otherwise result × 100 = value × percent |
| PercentMath.Of | pkg/percent/percent.go:42-52 | a zero total gives DivideByZero whatever the part; a nonzero total below the part gives PartGreaterThanTotal; both with value 0; fails in no other case; otherwise result × total = part × 100 |
| PercentMath.Change | pkg/percent/percent.go:55-61 | fails exactly when the old value is 0, with DivideByZero and value 0; otherwise result × \|old\| = (new − old) × 100 |
| PercentMath.Remain | pkg/percent/percent.go:64-70 | fails exactly when the percentage lies outside [0, 100], with OutOfRange and value 0; otherwise result × 100 = value × (100 − percent) |
| PercentMath.FromRatio | pkg/percent/percent.go:73-79 | fails exactly when the ratio lies outside [0, 1], with OutOfRange and value 0; otherwise the result is a percentage in [0, 100] whose ratio is the input |
| PercentMath.ToRatio | pkg/percent/percent.go:82-88 | fails exactly when the percentage lies outside [0, 100], with OutOfRange and value 0; otherwise the result is a ratio in [0, 1] that scales back to the input |
| PercentMath.FirstFailure | pkg/percent/percent.go:42-49 | running checks in order and stopping at the first that fails: no error exactly when every check passes; otherwise the error of a failed check before which every check passed |
| PercentLaws.ReportsFirstFailedCheck | pkg/percent/percent.go:33-88 | each of the six operations reports exactly the error of the first failing check among its checks in source order (for Of: zero total, then part above total), and no error when all pass |
| PercentLaws.ErrorCarriesZero | pkg/percent/percent.go:33-88 | for all inputs, every one of the six operations returns the value 0 whenever it returns an error |
| PercentLaws.SharedPercentDomain | pkg/percent/percent.go:33-88 | Percent, Remain and ToRatio report the same error for the same percentage: none inside [0, 100], OutOfRange outside it |
| PercentLaws.Complement | pkg/percent/percent.go:33-70 | for a valid percentage both Percent and Remain succeed and their results add up to the value |
| PercentLaws.PercentBetweenZeroAndValue | pkg/percent/percent.go:33-39 | a valid percentage of a value lies between 0 and that value, for either sign of the value |
| PercentLaws.PercentMonotone | pkg/percent/percent.go:33-39 | a larger valid percentage takes a share at least as large of a non-negative value, and at most as large of a negative one |
| PercentLaws.PercentRatioRoundTrip | pkg/percent/percent.go:73-88 | every percentage in [0, 100] converts to a ratio in [0, 1], and FromRatio of that ratio succeeds with the percentage |
| PercentLaws.RatioPercentRoundTrip | pkg/percent/percent.go:73-88 | every ratio in [0, 1] converts to a percentage in [0, 100], and ToRatio of that percentage succeeds with the ratio |
| PercentLaws.OfZeroTotalWins | pkg/percent/percent.go:42-49 | a zero total is reported as DivideByZero for every part, including parts greater than the total |
| PercentLaws.OfThenPercent | pkg/percent/percent.go:33-52 | for a positive total and a part in [0, total], Of yields a percentage in [0, 100], and Percent of that percentage of the total gives back the part |
| PercentLaws.PercentThenOf | pkg/percent/percent.go:33-52 | for a positive total and a valid percentage, Of of the resulting part succeeds with that percentage |
| PercentLaws.OfNegativeTotalAtLeastHundred | pkg/percent/percent.go:42-52 | with a negative total, every successful Of result is at least 100 |
| PercentLaws.ChangeSign | pkg/percent/percent.go:55-61 | the change is positive exactly when the new value exceeds the old one and negative exactly when it is below it |
| PercentLaws.ChangeApplied | pkg/percent/percent.go:55-61 | adding the reported change, taken of \|old\|, to the old value gives the new value |
| PercentCases.PercentScenarios | pkg/percent/percent_test.go:45-83 | the Percent test table: (25, 100) → 25, (50, −200) → −100, (150, 100) → OutOfRange |
| PercentCases.OfScenarios | pkg/percent/percent_test.go:112-161 | the Of test table, including (−200, −50) → 400 and (150, 0) → DivideByZero |
| PercentCases.ChangeScenarios | pkg/percent/percent_test.go:190-228 | the Change test table: (25, 100) → 300, (−50, −200) → −300, (0, 100) → DivideByZero |
| PercentCases.RemainScenarios | pkg/percent/percent_test.go:257-295 | the Remain test table: (25, 100) → 75, (50, −200) → −100, (150, 100) → OutOfRange |
| PercentCases.FromRatioScenarios | pkg/percent/percent_test.go:323-348 | the FromRatio test table: 0.25 → 25, 2 → OutOfRange |
| PercentCases.ToRatioScenarios | pkg/percent/percent_test.go:376-401 | the ToRatio test table: 50 → 0.5, 150 → OutOfRange |

## Left out

- Floating-point behaviour: rounding, infinities, `-0 == 0` and NaN are not modelled; numbers are exact reals, so the complement and round-trip laws hold exactly rather than within a tolerance. In particular a NaN percentage, which passes every range check of the library and yields NaN, has no counterpart here.
- Widening of generic inputs: large 64-bit integers lose precision when converted to `float64`; the model assumes the conversion is exact.
- `math.Abs` is a call into the Go standard library; it is replaced by the Dafny function `PercentMath.Abs`.
- `tools.go` only pins build-tool imports and has no logic.
- The test harness (parallel subtests, table iteration) is not modelled; its concrete cases appear as the `PercentCases` lemmas.
- Concurrency: the operations share no state, so there is nothing to model.
