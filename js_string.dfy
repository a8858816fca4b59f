/** The parts of JavaScript's string built-ins that the cart and the checkout
    form rely on: `String.prototype.trim` and the regular-expression class `\d`. */
module JsString {

  /** WhiteSpace or LineTerminator in the sense of ECMAScript (sections 12.2 and
      12.3 of ECMA-262): the characters `trim` strips and `BigInt(string)` skips. */
  predicate IsWhiteSpace(c: char)
  {
    var u := c as int;
    u == 0x09 || u == 0x0B || u == 0x0C || u == 0x20 || u == 0xA0 || u == 0xFEFF
    || u == 0x1680 || (0x2000 <= u <= 0x200A) || u == 0x202F || u == 0x205F || u == 0x3000
    || u == 0x0A || u == 0x0D || u == 0x2028 || u == 0x2029
  }

  /** `\d` in a regular expression without the `u` flag: an ASCII decimal digit. */
  predicate IsAsciiDigit(c: char)
  {
    '0' <= c <= '9'
  }

  predicate AllWhiteSpace(s: string)
  {
    forall i :: 0 <= i < |s| ==> IsWhiteSpace(s[i])
  }

  /** The string with its leading white space removed. */
  function TrimStart(s: string): string
  {
    if s != [] && IsWhiteSpace(s[0]) then TrimStart(s[1..]) else s
  }

  /** The string with its trailing white space removed. */
  function TrimEnd(s: string): string
  {
    if s != [] && IsWhiteSpace(s[|s| - 1]) then TrimEnd(s[..|s| - 1]) else s
  }

  /** `TrimStart` cuts a prefix of white space and stops at the first other character. */
  lemma {:induction false} TrimStartCuts(s: string)
    ensures |TrimStart(s)| <= |s| && TrimStart(s) == s[|s| - |TrimStart(s)|..]
    ensures TrimStart(s) != [] ==> !IsWhiteSpace(TrimStart(s)[0])
    ensures AllWhiteSpace(s[..|s| - |TrimStart(s)|])
  {
    if s != [] && IsWhiteSpace(s[0]) {
      TrimStartCuts(s[1..]);
      var r := TrimStart(s[1..]);
      assert s[1..][..|s| - 1 - |r|] == s[1..|s| - |r|];
    }
  }

  /** `TrimEnd` cuts a suffix of white space and stops at the last other character. */
  lemma {:induction false} TrimEndCuts(s: string)
    ensures |TrimEnd(s)| <= |s| && TrimEnd(s) == s[..|TrimEnd(s)|]
    ensures TrimEnd(s) != [] ==> !IsWhiteSpace(TrimEnd(s)[|TrimEnd(s)| - 1])
    ensures AllWhiteSpace(s[|TrimEnd(s)|..])
  {
    if s != [] && IsWhiteSpace(s[|s| - 1]) {
      TrimEndCuts(s[..|s| - 1]);
      var r := TrimEnd(s[..|s| - 1]);
      assert s[..|s| - 1][|r|..] == s[|r|..|s| - 1];
    }
  }

  /** `s.trim()`: white space cut off both ends. */
  function Trim(s: string): string
  {
    TrimEnd(TrimStart(s))
  }

  /** The trimmed string is an infix of the original that neither starts nor
      ends with white space, and everything cut off around it is white space. */
  lemma TrimCuts(s: string)
    ensures |TrimStart(s)| <= |s|
    ensures var r := Trim(s); var k := |s| - |TrimStart(s)|;
      k + |r| <= |s| && r == s[k..k + |r|]
      && (r != [] ==> !IsWhiteSpace(r[0]) && !IsWhiteSpace(r[|r| - 1]))
      && AllWhiteSpace(s[..k]) && AllWhiteSpace(s[k + |r|..])
  {
    var t := TrimStart(s);
    TrimStartCuts(s);
    TrimEndCuts(t);
    var k := |s| - |t|;
    var r := TrimEnd(t);
    assert s[k + |r|..] == t[|r|..];
  }

  /** A string trims to nothing exactly when every character of it is white space. */
  lemma TrimEmptyIff(s: string)
    ensures Trim(s) == [] <==> AllWhiteSpace(s)
  {
    TrimCuts(s);
    var k := |s| - |TrimStart(s)|;
    if Trim(s) == [] {
      assert s == s[..k] + s[k..];
    } else {
      assert Trim(s)[0] == s[k];
    }
  }

  /** A string with no white space at either end is its own trim. */
  lemma TrimUntouched(s: string)
    requires s != [] ==> !IsWhiteSpace(s[0]) && !IsWhiteSpace(s[|s| - 1])
    ensures Trim(s) == s
  {
  }

  /** `TrimStart` skips a prefix of white space up to a character that is not. */
  lemma {:induction false} TrimStartSkips(w: string, t: string)
    requires AllWhiteSpace(w) && t != [] && !IsWhiteSpace(t[0])
    ensures TrimStart(w + t) == t
  {
    if w == [] {
      assert w + t == t;
    } else {
      assert (w + t)[0] == w[0];
      assert (w + t)[1..] == w[1..] + t;
      TrimStartSkips(w[1..], t);
    }
  }

  /** `TrimEnd` skips a suffix of white space back to a character that is not. */
  lemma {:induction false} TrimEndSkips(t: string, w: string)
    requires AllWhiteSpace(w) && t != [] && !IsWhiteSpace(t[|t| - 1])
    ensures TrimEnd(t + w) == t
  {
    if w == [] {
      assert t + w == t;
    } else {
      assert (t + w)[|t + w| - 1] == w[|w| - 1];
      assert (t + w)[..|t + w| - 1] == t + w[..|w| - 1];
      TrimEndSkips(t, w[..|w| - 1]);
    }
  }

  /** Trimming a string padded with white space on both sides gives the string. */
  lemma TrimPadded(before: string, s: string, after: string)
    requires AllWhiteSpace(before) && AllWhiteSpace(after)
    requires s != [] && !IsWhiteSpace(s[0]) && !IsWhiteSpace(s[|s| - 1])
    ensures Trim(before + s + after) == s
  {
    assert before + s + after == before + (s + after);
    TrimStartSkips(before, s + after);
    TrimEndSkips(s, after);
  }

  /** The test `/^\d{n}$/.test(s)`: exactly `n` characters, all ASCII digits. */
  predicate IsDigitsOfLength(s: string, n: nat)
  {
    |s| == n && forall i :: 0 <= i < |s| ==> IsAsciiDigit(s[i])
  }
}
