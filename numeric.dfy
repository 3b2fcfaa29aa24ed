/** JavaScript numbers as exact rationals: the text-to-number conversions
    `parseFloat` and `Number(string)`, the relational operators with NaN and
    the infinities, and `Math.round`. Binary floating-point rounding is not
    modelled: a finite number is an exact `real`. */
module Numeric {
  import opened Strings

  datatype Num = NaN | PosInf | NegInf | Finite(value: real)

  /** `x < c` for a number `x` and a finite constant `c` (false for NaN). */
  predicate LessThan(x: Num, c: real) {
    match x
    case NaN => false
    case PosInf => false
    case NegInf => true
    case Finite(v) => v < c
  }

  /** `x > c` for a number `x` and a finite constant `c` (false for NaN). */
  predicate GreaterThan(x: Num, c: real) {
    match x
    case NaN => false
    case PosInf => true
    case NegInf => false
    case Finite(v) => v > c
  }

  /** JavaScript truthiness of a number: false exactly for NaN and 0. */
  predicate Truthy(x: Num) {
    !(x.NaN? || x == Finite(0.0))
  }

  /** `Math.round`: the nearest integer, halves rounded up. */
  function RoundHalfUp(x: real): (r: int)
    ensures x - 0.5 < r as real <= x + 0.5
  {
    (x + 0.5).Floor
  }

  function Pow10(e: nat): (r: real)
    ensures r >= 1.0
  {
    if e == 0 then 1.0 else 10.0 * Pow10(e - 1)
  }

  /** Length of the run of decimal digits at the start of `s`. */
  function DigitRun(s: string): (k: nat)
    ensures k <= |s|
    ensures forall i | 0 <= i < k :: IsDigit(s[i])
    ensures k == |s| || !IsDigit(s[k])
  {
    if s != [] && IsDigit(s[0]) then 1 + DigitRun(s[1..]) else 0
  }

  /** Value of a run of digits read as an integer. */
  function IntValue(ds: string): nat
    requires forall i | 0 <= i < |ds| :: IsDigit(ds[i])
  {
    if ds == [] then 0 else IntValue(ds[..|ds| - 1]) * 10 + DigitValue(ds[|ds| - 1])
  }

  /** Value of a run of digits read after a decimal point. */
  function FracValue(ds: string): real
    requires forall i | 0 <= i < |ds| :: IsDigit(ds[i])
  {
    if ds == [] then 0.0 else (DigitValue(ds[0]) as real + FracValue(ds[1..])) / 10.0
  }

  /** The longest prefix of a text that is an ECMAScript StrDecimalLiteral
      (sign, then `Infinity` or digits with an optional fraction and
      exponent), with its value and length. */
  datatype Scan = NoNumber | Scanned(n: Num, len: nat)

  function ScanDecimal(t: string): (r: Scan)
    ensures r.Scanned? ==> 0 < r.len <= |t|
  {
    var signLen := if t != [] && (t[0] == '+' || t[0] == '-') then 1 else 0;
    var negative := signLen == 1 && t[0] == '-';
    match ScanUnsigned(t[signLen..])
    case NoNumber => NoNumber
    case Scanned(n, len) => Scanned(if negative then Negate(n) else n, signLen + len)
  }

  function Negate(n: Num): Num {
    match n
    case NaN => NaN
    case PosInf => NegInf
    case NegInf => PosInf
    case Finite(v) => Finite(-v)
  }

  /** The unsigned part of a StrDecimalLiteral. */
  function ScanUnsigned(u: string): (r: Scan)
    ensures r.Scanned? ==> 0 < r.len <= |u|
  {
    if StartsWith(u, "Infinity") then Scanned(PosInf, 8) else ScanFinite(u)
  }

  /** Digits with an optional fraction and exponent; at least one digit
      must be there, before or after the point. */
  function ScanFinite(u: string): (r: Scan)
    ensures r.Scanned? ==> 0 < r.len <= |u|
  {
    var k := DigitRun(u);
    var hasPoint := k < |u| && u[k] == '.';
    var f := if hasPoint then DigitRun(u[k + 1..]) else 0;
    if k + f == 0 then NoNumber
    else
      var frac := if hasPoint then u[k + 1..][..f] else [];
      var mantLen := if hasPoint then k + 1 + f else k;
      var mantissa := IntValue(u[..k]) as real + FracValue(frac);
      var (scaled, expLen) := ScanExponent(mantissa, u[mantLen..]);
      Scanned(Finite(scaled), mantLen + expLen)
  }

  /** An optional exponent part `e[+-]digits` after the mantissa: the scaled
      value and how many characters it took (0 when there is none). */
  function ScanExponent(mantissa: real, rest: string): (r: (real, nat))
    ensures r.1 <= |rest|
  {
    var expSignLen := if |rest| > 1 && (rest[1] == '+' || rest[1] == '-') then 1 else 0;
    var e := if rest != [] && (rest[0] == 'e' || rest[0] == 'E') then DigitRun(rest[1 + expSignLen..]) else 0;
    if e == 0 then (mantissa, 0)
    else
      var scale := Pow10(IntValue(rest[1 + expSignLen..][..e]));
      var magnitude := if expSignLen == 1 && rest[1] == '-' then mantissa / scale else mantissa * scale;
      (magnitude, 1 + expSignLen + e)
  }

  /** `parseFloat(s)`: skip leading whitespace, read the longest decimal
      prefix, NaN when there is none. */
  function ParseFloat(s: string): (r: Num)
    ensures TrimStart(s) == [] ==> r == NaN
  {
    match ScanDecimal(TrimStart(s))
    case NoNumber => NaN
    case Scanned(n, _) => n
  }

  /** `Number(s)` for a string: surrounding whitespace is ignored, an empty
      text is 0, otherwise the whole text must be one unsigned `0x`, `0o` or
      `0b` integer literal or one decimal literal. */
  function StringToNumber(s: string): (r: Num)
    ensures Trim(s) == [] ==> r == Finite(0.0)
    ensures HasRadixPrefix(Trim(s)) ==> r.NaN? || (r.Finite? && 0.0 <= r.value && r.value.Floor as real == r.value)
  {
    var t := Trim(s);
    if t == [] then Finite(0.0)
    else if HasRadixPrefix(t) then NonDecimal(t)
    else WholeDecimal(t)
  }

  /** The value of `t` when all of it is one decimal literal, else NaN. */
  function WholeDecimal(t: string): Num {
    match ScanDecimal(t)
    case NoNumber => NaN
    case Scanned(n, len) => if len == |t| then n else NaN
  }

  predicate IsHexDigit(c: char) {
    IsDigit(c) || 'a' <= c <= 'f' || 'A' <= c <= 'F'
  }

  function HexDigitValue(c: char): (v: nat)
    requires IsHexDigit(c)
    ensures v < 16
  {
    if IsDigit(c) then DigitValue(c)
    else if 'a' <= c <= 'f' then c as int - 'a' as int + 10
    else c as int - 'A' as int + 10
  }

  predicate IsRadixDigit(c: char, radix: nat) {
    IsHexDigit(c) && HexDigitValue(c) < radix
  }

  /** Value of a run of digits in base `radix`. */
  function RadixValue(ds: string, radix: nat): nat
    requires forall i | 0 <= i < |ds| :: IsRadixDigit(ds[i], radix)
  {
    if ds == [] then 0
    else
      assert IsRadixDigit(ds[|ds| - 1], radix);
      RadixValue(ds[..|ds| - 1], radix) * radix + HexDigitValue(ds[|ds| - 1])
  }

  /** The base named by the letter after a leading `0`, or 0 for none. */
  function RadixOf(c: char): nat {
    if c == 'x' || c == 'X' then 16
    else if c == 'o' || c == 'O' then 8
    else if c == 'b' || c == 'B' then 2
    else 0
  }

  predicate HasRadixPrefix(t: string) {
    |t| >= 2 && t[0] == '0' && RadixOf(t[1]) != 0
  }

  /** A NonDecimalIntegerLiteral: after the prefix, at least one digit of
      that base and nothing else; anything else is NaN. */
  function NonDecimal(t: string): Num
    requires HasRadixPrefix(t)
  {
    var radix := RadixOf(t[1]);
    var ds := t[2..];
    if ds != [] && forall i | 0 <= i < |ds| :: IsRadixDigit(ds[i], radix) then Finite(RadixValue(ds, radix) as real)
    else NaN
  }

  lemma {:induction false} IntValueOfNatToString(n: nat)
    ensures IntValue(NatToString(n)) == n
  {
    var s := NatToString(n);
    if n >= 10 {
      IntValueOfNatToString(n / 10);
      assert s[..|s| - 1] == NatToString(n / 10);
    }
  }

  lemma {:induction false} DigitRunAll(s: string)
    requires forall i | 0 <= i < |s| :: IsDigit(s[i])
    ensures DigitRun(s) == |s|
  {
    if s != [] { DigitRunAll(s[1..]); }
  }

  /** Reading back the decimal text of a natural number gives the number,
      through `parseFloat` and through `Number`. */
  lemma ParseNatToString(n: nat)
    ensures ParseFloat(NatToString(n)) == Finite(n as real)
    ensures StringToNumber(NatToString(n)) == Finite(n as real)
  {
    var s := NatToString(n);
    DigitsTrimmed(s);
    DigitsNoRadixPrefix(s);
    ScanDigits(s);
    IntValueOfNatToString(n);
  }

  lemma DigitsNoRadixPrefix(s: string)
    requires forall i | 0 <= i < |s| :: IsDigit(s[i])
    ensures !HasRadixPrefix(s)
  {
    if |s| >= 2 {
      assert IsDigit(s[1]);
    }
  }

  lemma DigitsTrimmed(s: string)
    requires s != [] && forall i | 0 <= i < |s| :: IsDigit(s[i])
    ensures TrimStart(s) == s && Trim(s) == s
  {
    DigitNotWhitespace(s[0]);
    DigitNotWhitespace(s[|s| - 1]);
    assert TrimStart(s) == s;
    assert TrimEnd(s) == s;
  }

  lemma DigitNotWhitespace(c: char)
    requires IsDigit(c)
    ensures !IsJsWhitespace(c)
  {
  }

  lemma ScanDigits(s: string)
    requires s != [] && forall i | 0 <= i < |s| :: IsDigit(s[i])
    ensures ScanDecimal(s) == Scanned(Finite(IntValue(s) as real), |s|)
  {
    assert s[0] != '+' && s[0] != '-' by { assert IsDigit(s[0]); }
    assert s[0..] == s;
    ScanUnsignedDigits(s);
  }

  lemma ScanUnsignedDigits(s: string)
    requires s != [] && forall i | 0 <= i < |s| :: IsDigit(s[i])
    ensures ScanUnsigned(s) == Scanned(Finite(IntValue(s) as real), |s|)
  {
    DigitNotInfinity(s);
    ScanFiniteDigits(s);
  }

  lemma DigitNotInfinity(s: string)
    requires s != [] && IsDigit(s[0])
    ensures !StartsWith(s, "Infinity")
  {
    assert s[0] != 'I';
  }

  lemma ScanFiniteDigits(s: string)
    requires s != [] && forall i | 0 <= i < |s| :: IsDigit(s[i])
    ensures ScanFinite(s) == Scanned(Finite(IntValue(s) as real), |s|)
  {
    DigitRunAll(s);
    assert s[..|s|] == s;
    NoExponent(IntValue(s) as real, s[|s|..]);
  }

  lemma NoExponent(m: real, rest: string)
    requires rest == []
    ensures ScanExponent(m, rest) == (m, 0)
  {
  }

  /** Text that does not start with a sign, a digit, a point or `Infinity`
      (after whitespace) is NaN to `parseFloat`. */
  lemma ParseFloatNoNumber(s: string)
    requires var t := TrimStart(s);
      t == [] || !(IsDigit(t[0]) || t[0] == '+' || t[0] == '-' || t[0] == '.' || t[0] == 'I')
    ensures ParseFloat(s) == NaN
  {
    var t := TrimStart(s);
    if t != [] {
      assert !StartsWith(t, "Infinity");
      assert DigitRun(t) == 0;
      assert ScanUnsigned(t) == NoNumber;
    }
  }

  /** `Number` reads hexadecimal, octal and binary integer literals, with
      either case of prefix and of hex digit. */
  lemma NonDecimalLiterals()
    ensures StringToNumber("0x1F") == Finite(31.0)
    ensures StringToNumber(" 0b101\n") == Finite(5.0)
    ensures StringToNumber("0O17") == Finite(15.0)
  {
    HexLiteral();
    BinaryLiteral();
    OctalLiteral();
  }

  lemma HexLiteral()
    ensures StringToNumber("0x1F") == Finite(31.0)
  {
    TrimmedIsFixed("0x1F");
    var ds := "0x1F"[2..];
    assert ds == "1F" && ds[..1] == "1";
    assert RadixValue(ds, 16) == 31;
  }

  lemma BinaryLiteral()
    ensures StringToNumber(" 0b101\n") == Finite(5.0)
  {
    TrimPadded(" ", "0b101", "\n");
    assert " " + "0b101" + "\n" == " 0b101\n";
    var ds := "0b101"[2..];
    assert ds == "101" && ds[..2] == "10" && ds[..2][..1] == "1" && ds[..2][..1][..0] == [];
    assert RadixValue("1", 2) == 1;
    assert RadixValue("10", 2) == 2;
    assert RadixValue(ds, 2) == 5;
  }

  lemma OctalLiteral()
    ensures StringToNumber("0O17") == Finite(15.0)
  {
    TrimmedIsFixed("0O17");
    var ds := "0O17"[2..];
    assert ds == "17" && ds[..1] == "1";
    assert RadixValue(ds, 8) == 15;
  }

  /** A prefix with no digits, a digit outside the base, or a sign makes the
      text NaN. */
  lemma BadNonDecimalLiterals()
    ensures StringToNumber("0x") == NaN
    ensures StringToNumber("0b102") == NaN
    ensures StringToNumber("-0x1F") == NaN
  {
    EmptyHexRefused();
    BadBinaryDigitRefused();
    SignedHexStopsAtX();
  }

  lemma EmptyHexRefused()
    ensures StringToNumber("0x") == NaN
  {
    TrimmedIsFixed("0x");
    assert "0x"[2..] == [];
  }

  lemma BadBinaryDigitRefused()
    ensures StringToNumber("0b102") == NaN
  {
    TrimmedIsFixed("0b102");
    var ds := "0b102"[2..];
    assert ds[2] == '2' && !IsRadixDigit(ds[2], 2);
  }

  lemma SignedHexStopsAtX()
    ensures StringToNumber("-0x1F") == NaN
  {
    var t := "-0x1F";
    TrimmedIsFixed(t);
    var u := t[1..];
    assert u == "0x1F" && u[1..] == "x1F";
    DigitNotInfinity(u);
    assert DigitRun(u) == 1;
    assert ScanFinite(u) == Scanned(Finite(0.0), 1);
  }

  /** Whitespace before the text does not change what `parseFloat` reads. */
  lemma ParseFloatSkipsLeadingWhitespace(pre: string, x: string)
    requires AllWhitespace(pre)
    ensures ParseFloat(pre + x) == ParseFloat(x)
  {
    TrimStartSkipsPadding(pre, x);
  }

  /** Whitespace around a literal does not change what `Number` reads. */
  lemma NumberIgnoresPadding(pre: string, x: string, post: string)
    requires AllWhitespace(pre) && AllWhitespace(post) && Trimmed(x)
    ensures StringToNumber(pre + x + post) == StringToNumber(x)
  {
    TrimPadded(pre, x, post);
    TrimmedIsFixed(x);
  }
}
