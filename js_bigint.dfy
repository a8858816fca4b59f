/** The two conversions between JavaScript `bigint` values and strings that the
    cart's persistence uses: `n.toString()` (decimal digits, a leading `-` for a
    negative value) and the constructor call `BigInt(s)` on a string, which
    follows StringToBigInt (section 7.1.14 of ECMA-262) and throws a SyntaxError
    on text that is not an integer literal. A throw is `None` here. */
module JsBigInt {
  import opened Wrappers
  import opened JsString

  /** The value of a digit character in the given base, or -1 when it is not one. */
  function DigitValue(c: char, base: nat): (v: int)
    requires 2 <= base <= 16
    ensures -1 <= v < base
    ensures IsAsciiDigit(c) && base == 10 ==> v == (c as int) - ('0' as int)
  {
    var d :=
      if '0' <= c <= '9' then c as int - '0' as int
      else if 'a' <= c <= 'f' then c as int - 'a' as int + 10
      else if 'A' <= c <= 'F' then c as int - 'A' as int + 10
      else -1;
    if d < base then d else -1
  }

  predicate AllDigits(s: string, base: nat)
    requires 2 <= base <= 16
  {
    forall i :: 0 <= i < |s| ==> DigitValue(s[i], base) >= 0
  }

  /** The number a string of digits denotes, most significant digit first. */
  function DigitsValue(s: string, base: nat): (n: nat)
    requires 2 <= base <= 16
    requires AllDigits(s, base)
  {
    if s == [] then 0
    else DigitsValue(s[..|s| - 1], base) * base + DigitValue(s[|s| - 1], base)
  }

  /** A non-empty run of digits in the given base, and its value; `None` otherwise. */
  function ParseDigits(s: string, base: nat): (r: Option<nat>)
    requires 2 <= base <= 16
    ensures r.Some? <==> s != [] && AllDigits(s, base)
  {
    if s != [] && AllDigits(s, base) then Some(DigitsValue(s, base)) else None
  }

  /** The digit character of a value below ten. */
  function DecimalDigit(d: nat): (c: char)
    requires d < 10
    ensures IsAsciiDigit(c) && DigitValue(c, 10) == d
  {
    ('0' as int + d) as char
  }

  /** The decimal digits of a natural number, without leading zeros. */
  function NatToDecimal(n: nat): (s: string)
    ensures s != [] && AllDigits(s, 10)
    ensures forall i :: 0 <= i < |s| ==> IsAsciiDigit(s[i])
    ensures s[0] == '0' ==> n == 0 && s == "0"
  {
    if n < 10 then [DecimalDigit(n)]
    else NatToDecimal(n / 10) + [DecimalDigit(n % 10)]
  }

  /** `n.toString()` on a bigint. */
  function ToDecimalString(n: int): (s: string)
    ensures s != [] && !IsWhiteSpace(s[0]) && !IsWhiteSpace(s[|s| - 1])
    ensures n < 0 <==> s[0] == '-'
  {
    if n < 0 then "-" + NatToDecimal(-n) else NatToDecimal(n)
  }

  /** `BigInt(s)` on a string: surrounding white space is ignored, and what is
      left must be an integer literal. */
  function ParseBigInt(s: string): (r: Option<int>)
  {
    ParseLiteral(Trim(s))
  }

  /** StringIntegerLiteral without its white space: the empty string is zero, a
      decimal literal may carry one sign, and `0x`, `0o` and `0b` introduce
      unsigned hexadecimal, octal and binary literals. */
  function ParseLiteral(t: string): (r: Option<int>)
  {
    if t == [] then Some(0)
    else if |t| >= 2 && t[0] == '0' && (t[1] == 'x' || t[1] == 'X') then Widen(ParseDigits(t[2..], 16))
    else if |t| >= 2 && t[0] == '0' && (t[1] == 'o' || t[1] == 'O') then Widen(ParseDigits(t[2..], 8))
    else if |t| >= 2 && t[0] == '0' && (t[1] == 'b' || t[1] == 'B') then Widen(ParseDigits(t[2..], 2))
    else if t[0] == '-' then Negate(ParseDigits(t[1..], 10))
    else if t[0] == '+' then Widen(ParseDigits(t[1..], 10))
    else Widen(ParseDigits(t, 10))
  }

  function Widen(r: Option<nat>): Option<int>
  {
    match r
    case Some(v) => Some(v)
    case None => None
  }

  function Negate(r: Option<nat>): Option<int>
  {
    match r
    case Some(v) => Some(0 - v)
    case None => None
  }

  /** How a literal without white space reads when it starts with a sign or a digit. */
  lemma LiteralStart(t: string)
    requires t != []
    ensures t[0] == '-' ==> ParseLiteral(t) == Negate(ParseDigits(t[1..], 10))
    ensures IsAsciiDigit(t[0]) && (t[0] == '0' ==> |t| == 1) ==> ParseLiteral(t) == Widen(ParseDigits(t, 10))
  {
  }

  /** Reading back the decimal digits of a natural number gives that number. */
  lemma {:induction false} NatToDecimalRoundTrip(n: nat)
    ensures DigitsValue(NatToDecimal(n), 10) == n
  {
    if n >= 10 {
      var p := NatToDecimal(n / 10);
      var s := NatToDecimal(n);
      assert s[..|s| - 1] == p;
      NatToDecimalRoundTrip(n / 10);
    }
  }

  /** `BigInt(n.toString())` is `n` again, exactly, however large `n` is. */
  lemma DecimalRoundTrip(n: int)
    ensures ParseBigInt(ToDecimalString(n)) == Some(n)
  {
    if n < 0 {
      NegativeRoundTrip(n);
    } else {
      NonNegativeRoundTrip(n);
    }
  }

  lemma NegativeRoundTrip(n: int)
    requires n < 0
    ensures ParseBigInt(ToDecimalString(n)) == Some(n)
  {
    var s := ToDecimalString(n);
    var m: nat := -n;
    var d := NatToDecimal(m);
    assert s == "-" + d;
    assert s[1..] == d;
    TrimUntouched(s);
    LiteralStart(s);
    NatToDecimalRoundTrip(m);
    assert ParseDigits(d, 10) == Some(m);
  }

  lemma NonNegativeRoundTrip(n: int)
    requires n >= 0
    ensures ParseBigInt(ToDecimalString(n)) == Some(n)
  {
    var s := ToDecimalString(n);
    TrimUntouched(s);
    LiteralStart(s);
    NatToDecimalRoundTrip(n);
    assert ParseDigits(s, 10) == Some(n);
    assert IsAsciiDigit(s[0]);
  }

  /** Distinct bigints have distinct decimal strings. */
  lemma DecimalInjective(m: int, n: int)
    requires ToDecimalString(m) == ToDecimalString(n)
    ensures m == n
  {
    DecimalRoundTrip(m);
    DecimalRoundTrip(n);
  }

  /** A literal that starts like a decimal number, with a digit or a sign, but
      holds any other character later, such as the point of "2.5", "0.5" or
      "-2.5" or the space of "12 34", makes `BigInt` throw. A leading `0`
      followed by `x`, `o` or `b` starts a prefixed literal instead, so it is
      left out. */
  lemma ParseRejectsNonDigit(t: string, i: nat)
    requires Trim(t) == t && 0 < i < |t|
    requires IsAsciiDigit(t[0]) || t[0] == '-' || t[0] == '+'
    requires t[0] == '0' ==> t[1] !in "xXoObB"
    requires DigitValue(t[i], 10) < 0
    ensures ParseBigInt(t) == None
  {
    if t[0] == '-' || t[0] == '+' {
      assert DigitValue(t[1..][i - 1], 10) < 0;
    }
  }
}
