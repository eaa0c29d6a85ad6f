/** String helpers the source takes from its runtimes: decimal rendering of integers
    (template literals, f-strings), JavaScript `trim()` and Python `strip()`, and
    upper-casing of one character. */
module Strings {
  import opened Wire

  predicate IsDigit(c: char) {
    '0' <= c <= '9'
  }

  predicate AllDigits(s: string) {
    forall i :: 0 <= i < |s| ==> IsDigit(s[i])
  }

  function DigitChar(d: nat): (c: char)
    requires d < 10
    ensures IsDigit(c) && c as int - '0' as int == d
  {
    ('0' as int + d) as char
  }

  /** Decimal digits of a natural number, most significant first, without leading zeros. */
  function NatToString(n: nat): (s: string)
    ensures |s| >= 1 && AllDigits(s)
    ensures n > 0 ==> s[0] != '0'
    decreases n
  {
    if n < 10 then [DigitChar(n)] else NatToString(n / 10) + [DigitChar(n % 10)]
  }

  /** How JavaScript and Python render an integer: an optional '-' then its digits. */
  function IntToString(n: int): (s: string)
    ensures |s| >= 1
    ensures n < 0 <==> s[0] == '-'
    ensures ' ' !in s
  {
    if n < 0 then "-" + NatToString(-n) else NatToString(n)
  }

  /** Value of a string of decimal digits. */
  function DigitsValue(s: string): nat
    requires AllDigits(s)
  {
    if s == [] then 0 else DigitsValue(s[..|s| - 1]) * 10 + (s[|s| - 1] as int - '0' as int)
  }

  /** Inverse of IntToString: an optional '-' followed by at least one digit. */
  function ParseInt(s: string): Option<int> {
    if |s| >= 2 && s[0] == '-' && AllDigits(s[1..]) then Some(-(DigitsValue(s[1..]) as int))
    else if |s| >= 1 && AllDigits(s) then Some(DigitsValue(s))
    else None
  }

  lemma {:induction false} NatToStringValue(n: nat)
    ensures DigitsValue(NatToString(n)) == n
    decreases n
  {
    if n >= 10 {
      var s := NatToString(n);
      assert s[..|s| - 1] == NatToString(n / 10);
      NatToStringValue(n / 10);
    }
  }

  /** Rendering an integer and parsing it back gives the integer. */
  lemma IntToStringRoundTrip(n: int)
    ensures ParseInt(IntToString(n)) == Some(n)
  {
    if n < 0 {
      NatToStringValue(-n);
      assert IntToString(n)[1..] == NatToString(-n);
    } else {
      NatToStringValue(n);
    }
  }

  /** Different integers render differently. */
  lemma IntToStringInjective(m: int, n: int)
    requires IntToString(m) == IntToString(n)
    ensures m == n
  {
    IntToStringRoundTrip(m);
    IntToStringRoundTrip(n);
  }

  /** The text before the first space (all of it when there is none). */
  function LeadingToken(s: string): (t: string)
    ensures |t| <= |s| && t == s[..|t|] && ' ' !in t
    ensures |t| < |s| ==> s[|t|] == ' '
  {
    if s == [] || s[0] == ' ' then [] else [s[0]] + LeadingToken(s[1..])
  }

  lemma {:induction false} LeadingTokenOfConcat(t: string, rest: string)
    requires ' ' !in t
    ensures LeadingToken(t + " " + rest) == t
  {
    if t != [] {
      assert (t + " " + rest)[1..] == t[1..] + " " + rest;
      LeadingTokenOfConcat(t[1..], rest);
    }
  }

  // ---------------------------------------------------------------------------
  // Stripping white space from both ends

  /** Which characters count as white space: JavaScript's or Python's. */
  datatype Whitespace = JsWhitespace | PyWhitespace

  predicate IsSpace(ws: Whitespace, c: char) {
    match ws
    case JsWhitespace => IsJsSpace(c)
    case PyWhitespace => IsPySpace(c)
  }

  predicate AllIn(s: string, ws: Whitespace) {
    forall i :: 0 <= i < |s| ==> IsSpace(ws, s[i])
  }

  /** How many characters at the start of `s` are white space. */
  function LeadingCount(s: string, ws: Whitespace): (n: nat)
    ensures n <= |s|
    ensures forall i :: 0 <= i < n ==> IsSpace(ws, s[i])
    ensures n < |s| ==> !IsSpace(ws, s[n])
  {
    if s != [] && IsSpace(ws, s[0]) then 1 + LeadingCount(s[1..], ws) else 0
  }

  /** How many characters at the end of `s` are white space. */
  function TrailingCount(s: string, ws: Whitespace): (n: nat)
    ensures n <= |s|
    ensures forall i :: |s| - n <= i < |s| ==> IsSpace(ws, s[i])
    ensures n < |s| ==> !IsSpace(ws, s[|s| - 1 - n])
  {
    if s != [] && IsSpace(ws, s[|s| - 1]) then
      var n := TrailingCount(s[..|s| - 1], ws);
      assert forall i :: |s| - 1 - n <= i < |s| - 1 ==> s[..|s| - 1][i] == s[i];
      1 + n
    else 0
  }

  /** Both ends stripped: `s` is a run of spaces, the result, and another run of spaces,
      and the result neither starts nor ends with a space. */
  function Strip(s: string, ws: Whitespace): (r: string)
    ensures exists i :: 0 <= i <= |s| - |r| && s[i..i + |r|] == r && AllIn(s[..i], ws) && AllIn(s[i + |r|..], ws)
    ensures r != [] ==> !IsSpace(ws, r[0]) && !IsSpace(ws, r[|r| - 1])
  {
    var i := LeadingCount(s, ws);
    var a := s[i..];
    var t := TrailingCount(a, ws);
    var r := a[..|a| - t];
    assert s[i..i + |r|] == r;
    assert AllIn(s[..i], ws) by {
      forall k | 0 <= k < i ensures IsSpace(ws, s[..i][k]) {
        assert s[..i][k] == s[k];
      }
    }
    var tail := s[i + |r|..];
    assert AllIn(tail, ws) by {
      forall k | 0 <= k < |tail| ensures IsSpace(ws, tail[k]) {
        assert tail[k] == a[|r| + k];
      }
    }
    r
  }

  /** Stripping gives the empty string exactly when every character is a space. */
  lemma {:induction false} StripEmptyIff(s: string, ws: Whitespace)
    ensures Strip(s, ws) == [] <==> AllIn(s, ws)
  {
    var i := LeadingCount(s, ws);
    if i < |s| {
      assert s[i..][0] == s[i];
    }
  }

  /** Stripping twice is stripping once. */
  lemma StripIdempotent(s: string, ws: Whitespace)
    ensures Strip(Strip(s, ws), ws) == Strip(s, ws)
  {
  }

  /** A character JavaScript's `String.prototype.trim` removes: WhiteSpace or LineTerminator
      (ECMA-262, sections 12.2 and 12.3). */
  predicate IsJsSpace(c: char) {
    var n := c as int;
    n == 0x09 || n == 0x0A || n == 0x0B || n == 0x0C || n == 0x0D || n == 0x20 || n == 0xA0
    || n == 0x1680 || (0x2000 <= n <= 0x200A) || n == 0x2028 || n == 0x2029 || n == 0x202F
    || n == 0x205F || n == 0x3000 || n == 0xFEFF
  }

  /** A character for which Python's `str.isspace()` holds, the set `str.strip()` removes. */
  predicate IsPySpace(c: char) {
    var n := c as int;
    (0x09 <= n <= 0x0D) || (0x1C <= n <= 0x20) || n == 0x85 || n == 0xA0 || n == 0x1680
    || (0x2000 <= n <= 0x200A) || n == 0x2028 || n == 0x2029 || n == 0x202F || n == 0x205F
    || n == 0x3000
  }

  /** JavaScript `s.trim()`. */
  function Trim(s: string): (r: string)
    ensures |r| <= |s|
    ensures r != [] ==> !IsJsSpace(r[0]) && !IsJsSpace(r[|r| - 1])
  {
    Strip(s, JsWhitespace)
  }

  /** Python `s.strip()`. */
  function PyStrip(s: string): (r: string)
    ensures |r| <= |s|
    ensures r != [] ==> !IsPySpace(r[0]) && !IsPySpace(r[|r| - 1])
  {
    Strip(s, PyWhitespace)
  }

  /** Upper-casing of one character: the ASCII letters 'a'..'z' map to 'A'..'Z'. */
  function ToUpperAscii(c: char): (u: char)
    ensures 'a' <= c <= 'z' ==> 'A' <= u <= 'Z' && u as int - 'A' as int == c as int - 'a' as int
    ensures !('a' <= c <= 'z') ==> u == c
  {
    if 'a' <= c <= 'z' then (c as int - 32) as char else c
  }
}
