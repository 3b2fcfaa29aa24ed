/** lib/utils/validation.ts: the login-code pattern and the numeric checks of
    the onboarding flow. */
module Validation {
  import opened Wrappers
  import opened Strings
  import opened Numeric

  /** A character of the class `[A-Z0-9]` under the case-insensitive flag. */
  predicate IsAsciiAlnum(c: char) {
    ('A' <= c <= 'Z') || ('a' <= c <= 'z') || ('0' <= c <= '9')
  }

  /** Matches `[A-Z0-9]{n}$` against `s`: exactly `n` characters of the
      class, then the end of the input. */
  function MatchClassTimes(s: string, n: nat): (r: bool)
    ensures r <==> |s| == n && forall i | 0 <= i < |s| :: IsAsciiAlnum(s[i])
  {
    if n == 0 then s == []
    else s != [] && IsAsciiAlnum(s[0]) && MatchClassTimes(s[1..], n - 1)
  }

  /** `isLoginCode`: the regular expression `/^[A-Z0-9]{8}$/i`. */
  function IsLoginCode(text: string): (r: bool)
    ensures r <==> |text| == 8 && forall i | 0 <= i < 8 :: IsAsciiAlnum(text[i])
  {
    MatchClassTimes(text, 8)
  }

  /** Why `validateNumber` refused a text. `NotPositive` carries the text
      below; the messages for a bound embed the bound, printed as JavaScript
      prints a number. */
  datatype NumberError = NotPositive | BelowMin(min: real) | AboveMax(max: real)

  const NotPositiveText := "Please enter a valid positive number."

  datatype ValidationResult = Valid(value: Num) | Invalid(error: NumberError)

  /** `validateNumber(text, min?, max?)`. */
  function ValidateNumber(text: string, min: Option<real>, max: Option<real>): (r: ValidationResult)
    ensures r.Valid? <==>
      var n := ParseFloat(text);
      && !n.NaN? && GreaterThan(n, 0.0)
      && (min.Some? ==> !LessThan(n, min.value))
      && (max.Some? ==> !GreaterThan(n, max.value))
    ensures r.Valid? ==> r.value == ParseFloat(text)
    ensures r == Invalid(NotPositive) <==> ParseFloat(text).NaN? || !GreaterThan(ParseFloat(text), 0.0)
  {
    var num := ParseFloat(text);
    if num.NaN? || !GreaterThan(num, 0.0) then Invalid(NotPositive)
    else if min.Some? && LessThan(num, min.value) then Invalid(BelowMin(min.value))
    else if max.Some? && GreaterThan(num, max.value) then Invalid(AboveMax(max.value))
    else Valid(num)
  }

  /** Outcome of the range checks, which carry an error text when they fail. */
  datatype RangeCheck = InRange | OutOfRange(error: string)

  const WeightError := "Please enter a weight between 20 and 300 kg."
  const HeightError := "Please enter a height between 100 and 250 cm."

  /** `validateWeight`: `weight < 20 || weight > 300` fails. NaN compares
      false both ways and so passes; the caller never passes NaN. */
  function ValidateWeight(weight: Num): (r: RangeCheck)
    ensures r.InRange? <==> weight.NaN? || (weight.Finite? && 20.0 <= weight.value <= 300.0)
    ensures r.OutOfRange? ==> r.error == WeightError
  {
    if LessThan(weight, 20.0) || GreaterThan(weight, 300.0) then OutOfRange(WeightError) else InRange
  }

  /** `validateHeight`: `height < 100 || height > 250` fails. */
  function ValidateHeight(height: Num): (r: RangeCheck)
    ensures r.InRange? <==> height.NaN? || (height.Finite? && 100.0 <= height.value <= 250.0)
    ensures r.OutOfRange? ==> r.error == HeightError
  {
    if LessThan(height, 100.0) || GreaterThan(height, 250.0) then OutOfRange(HeightError) else InRange
  }

  /** The bounds are inclusive: a whole number typed as text passes
      `validateNumber` with itself as both minimum and maximum. */
  lemma BoundsInclusive(n: nat)
    requires n > 0
    ensures ValidateNumber(NatToString(n), Some(n as real), Some(n as real)) == Valid(Finite(n as real))
  {
    ParseNatToString(n);
  }

  /** Without bounds only positivity is checked: any positive whole number
      typed as text is accepted with its value. */
  lemma UnboundedAcceptsPositive(n: nat)
    requires n > 0
    ensures ValidateNumber(NatToString(n), None, None) == Valid(Finite(n as real))
  {
    ParseNatToString(n);
  }

  /** "0" is refused as not positive. */
  lemma ZeroRefused()
    ensures ValidateNumber("0", None, None) == Invalid(NotPositive)
  {
    ParseNatToString(0);
    assert NatToString(0) == "0";
  }
}
