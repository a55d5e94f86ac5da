/**
 * The ECMAScript built-ins that the application code relies on, stated on
 * Dafny strings: white space and `trim`, `parseInt` with no radix argument,
 * integer-to-string conversion inside template literals, `String.prototype.repeat`
 * and `String.prototype.substring`.
 *
 * A Dafny `char` is a Unicode scalar value, so lengths and indices here count
 * code points where JavaScript counts UTF-16 code units, except `Utf16Length`,
 * which counts code units as `String.prototype.length` does; the two agree on
 * text without characters outside the Basic Multilingual Plane.
 */
module JsRuntime {
  import opened Common

  /** WhiteSpace and LineTerminator code points of the ECMAScript grammar. */
  predicate IsWhiteSpace(c: char) {
    || c == '\t' || c == '\n' || c == '\U{B}' || c == '\U{C}' || c == '\r' || c == ' '
    || c == '\U{A0}' || c == '\U{1680}' || ('\U{2000}' <= c <= '\U{200A}')
    || c == '\U{2028}' || c == '\U{2029}' || c == '\U{202F}' || c == '\U{205F}'
    || c == '\U{3000}' || c == '\U{FEFF}'
  }

  predicate IsBlank(s: string) {
    forall i :: 0 <= i < |s| ==> IsWhiteSpace(s[i])
  }

  /** Removes leading white space: the remainder is a suffix of `s` that starts with a non-space. */
  function TrimStart(s: string): (r: string)
    ensures |r| <= |s| && r == s[|s| - |r|..]
    ensures forall i :: 0 <= i < |s| - |r| ==> IsWhiteSpace(s[i])
    ensures r != [] ==> !IsWhiteSpace(r[0])
  {
    if s != [] && IsWhiteSpace(s[0]) then TrimStart(s[1..]) else s
  }

  /** Removes trailing white space: the remainder is a prefix of `s` that ends with a non-space. */
  function TrimEnd(s: string): (r: string)
    ensures |r| <= |s| && r == s[..|r|]
    ensures forall i :: |r| <= i < |s| ==> IsWhiteSpace(s[i])
    ensures r != [] ==> !IsWhiteSpace(r[|r| - 1])
  {
    if s != [] && IsWhiteSpace(s[|s| - 1]) then TrimEnd(s[..|s| - 1]) else s
  }

  /** `String.prototype.trim`. */
  function Trim(s: string): string {
    TrimEnd(TrimStart(s))
  }

  /** `s.trim().length === 0` holds exactly for the strings made only of white space. */
  lemma TrimEmptyIffBlank(s: string)
    ensures |Trim(s)| == 0 <==> IsBlank(s)
  {
  }

  /** `c.repeat(n)` for a one-character string `c`. */
  function Repeat(c: char, n: nat): (r: string)
    ensures |r| == n
    ensures forall i :: 0 <= i < n ==> r[i] == c
  {
    if n == 0 then [] else Repeat(c, n - 1) + [c]
  }

  /** Whether `c` lies outside the Basic Multilingual Plane, and so takes two UTF-16 code units. */
  predicate IsAstral(c: char) {
    c as int >= 0x1_0000
  }

  /**
   * `s.length`: the number of UTF-16 code units, one per character of the Basic
   * Multilingual Plane and two (a surrogate pair) per character beyond it.
   */
  function Utf16Length(s: string): (n: nat)
    ensures |s| <= n <= 2 * |s|
    ensures n == |s| <==> forall i :: 0 <= i < |s| ==> !IsAstral(s[i])
  {
    if s == [] then 0 else Utf16Length(s[..|s| - 1]) + (if IsAstral(s[|s| - 1]) then 2 else 1)
  }

  /** The length of a concatenation is the sum of the lengths. */
  lemma {:induction false} Utf16LengthAppend(a: string, b: string)
    ensures Utf16Length(a + b) == Utf16Length(a) + Utf16Length(b)
    decreases |b|
  {
    if b == [] {
      assert a + b == a;
    } else {
      assert (a + b)[..|a + b| - 1] == a + b[..|b| - 1];
      Utf16LengthAppend(a, b[..|b| - 1]);
    }
  }

  /** `s.substring(start, end)`: both bounds are clamped to the string and swapped when reversed. */
  function Substring(s: string, start: int, end: int): (r: string)
    ensures 0 <= start <= end ==> r == s[Min(start, |s|)..Min(end, |s|)]
  {
    var lo := if start < 0 then 0 else Min(start, |s|);
    var hi := if end < 0 then 0 else Min(end, |s|);
    if lo <= hi then s[lo..hi] else s[hi..lo]
  }

  /** `s.substring(0, n)` keeps at most the first `n` characters. */
  lemma SubstringPrefix(s: string, n: nat)
    ensures Substring(s, 0, n) == s[..Min(n, |s|)]
    ensures |Substring(s, 0, n)| <= n
  {
  }

  predicate IsDecimalDigit(c: char) {
    '0' <= c <= '9'
  }

  function DigitChar(d: nat): (c: char)
    requires d < 10
    ensures IsDecimalDigit(c) && c as int - '0' as int == d
  {
    (d + '0' as int) as char
  }

  /** Decimal rendering of a non-negative integer, as `${n}` in a template literal. */
  function NatToString(n: nat): (s: string)
    ensures s != []
    ensures forall i :: 0 <= i < |s| ==> IsDecimalDigit(s[i])
    ensures s[0] == '0' ==> n == 0 && s == "0"
  {
    if n < 10 then [DigitChar(n)] else NatToString(n / 10) + [DigitChar(n % 10)]
  }

  /** Rendering of an integral Number (no exponent notation: see the README). */
  function IntToString(z: int): (s: string)
    ensures s != []
    ensures z < 0 <==> s[0] == '-'
  {
    if z < 0 then "-" + NatToString(-z) else NatToString(z)
  }

  /** Digits accepted by `parseInt` in radix 10 and, after a `0x` prefix, radix 16. */
  predicate IsRadixDigit(c: char, radix: nat) {
    || IsDecimalDigit(c)
    || (radix == 16 && (('a' <= c <= 'f') || ('A' <= c <= 'F')))
  }

  function DigitValue(c: char): (v: nat)
    requires IsRadixDigit(c, 16)
    ensures v < 16
    ensures IsDecimalDigit(c) ==> v == c as int - '0' as int
  {
    if IsDecimalDigit(c) then c as int - '0' as int
    else if 'a' <= c <= 'f' then c as int - 'a' as int + 10
    else c as int - 'A' as int + 10
  }

  /** Length of the longest prefix of `s` made of digits of `radix`. */
  function DigitPrefixLength(s: string, radix: nat): (k: nat)
    ensures k <= |s|
    ensures forall i :: 0 <= i < k ==> IsRadixDigit(s[i], radix)
    ensures k < |s| ==> !IsRadixDigit(s[k], radix)
  {
    if s != [] && IsRadixDigit(s[0], radix) then 1 + DigitPrefixLength(s[1..], radix) else 0
  }

  /** Positional value of a digit string, most significant digit first. */
  function DigitsValue(s: string, radix: nat): nat
    requires radix == 10 || radix == 16
    requires forall i :: 0 <= i < |s| ==> IsRadixDigit(s[i], radix)
  {
    if s == [] then 0
    else
      var last := s[|s| - 1];
      assert IsRadixDigit(last, radix);
      DigitsValue(s[..|s| - 1], radix) * radix + DigitValue(last)
  }

  /** The sign step of `parseInt`: one leading `-` or `+` is consumed. */
  function ScanSign(t: string): (r: (bool, string))
    ensures r.1 == t || (t != [] && r.1 == t[1..])
  {
    if t != [] && t[0] == '-' then (true, t[1..])
    else if t != [] && t[0] == '+' then (false, t[1..])
    else (false, t)
  }

  /** The prefix step of `parseInt`: a leading `0x` or `0X` selects radix 16. */
  function ScanRadix(u: string): (r: (nat, string))
    ensures r.0 == 10 || r.0 == 16
    ensures r.1 == u || (|u| >= 2 && r.1 == u[2..])
  {
    if |u| >= 2 && u[0] == '0' && (u[1] == 'x' || u[1] == 'X') then (16, u[2..]) else (10, u)
  }

  /** The digit step of `parseInt`: the value of the longest run of leading digits, `None` if there is none. */
  function ReadDigits(negative: bool, radix: nat, body: string): (r: Option<int>)
    requires radix == 10 || radix == 16
    ensures r.None? <==> body == [] || !IsRadixDigit(body[0], radix)
  {
    var k := DigitPrefixLength(body, radix);
    if k == 0 then None
    else
      var v: int := DigitsValue(body[..k], radix);
      Some(if negative then -v else v)
  }

  /**
   * `parseInt(s)` with no radix. `None` stands for `NaN`. Leading white space is
   * skipped, one sign is accepted, `0x`/`0X` switches to radix 16, and the value is
   * read from the longest run of digits that follows; the rest of the string is ignored.
   */
  function ParseInt(s: string): Option<int> {
    var (negative, u) := ScanSign(TrimStart(s));
    var (radix, body) := ScanRadix(u);
    ReadDigits(negative, radix, body)
  }

  /** Reading back a rendered number gives the number. */
  lemma {:induction false} DigitsValueOfNatToString(n: nat)
    ensures DigitsValue(NatToString(n), 10) == n
  {
    if n >= 10 {
      var s := NatToString(n);
      assert s[..|s| - 1] == NatToString(n / 10);
      DigitsValueOfNatToString(n / 10);
    }
  }

  /** A run of digits lengthens the digit prefix of whatever follows it by its own length. */
  lemma {:induction false} DigitPrefixOfDigits(d: string, rest: string)
    requires forall i :: 0 <= i < |d| ==> IsDecimalDigit(d[i])
    ensures DigitPrefixLength(d + rest, 10) == |d| + DigitPrefixLength(rest, 10)
  {
    if d == [] {
      assert d + rest == rest;
    } else {
      assert (d + rest)[0] == d[0];
      assert (d + rest)[1..] == d[1..] + rest;
      DigitPrefixOfDigits(d[1..], rest);
    }
  }

  /** Digits followed by a non-digit: the digit run is exactly the rendered digits. */
  lemma ReadDigitsOfRendered(negative: bool, n: nat, rest: string)
    requires rest == [] || !IsDecimalDigit(rest[0])
    ensures ReadDigits(negative, 10, NatToString(n) + rest) == Some(if negative then -(n as int) else n)
  {
    var d := NatToString(n);
    var body := d + rest;
    DigitPrefixOfDigits(d, rest);
    assert body[..|d|] == d;
    DigitsValueOfNatToString(n);
  }

  /**
   * `parseInt` reads a rendered integer back even when other text follows it,
   * as long as that text does not start with a digit (nor with `x` after a lone `0`).
   */
  lemma ParseIntOfRendered(z: int, rest: string)
    requires rest == [] || !(IsDecimalDigit(rest[0]) || rest[0] == 'x' || rest[0] == 'X')
    ensures ParseInt(IntToString(z) + rest) == Some(z)
  {
    var n: nat := if z < 0 then -z else z;
    var d := NatToString(n);
    var s := IntToString(z) + rest;
    assert !IsWhiteSpace(s[0]);
    assert TrimStart(s) == s;
    var u := d + rest;
    assert ScanSign(s) == (z < 0, u) by {
      if z < 0 {
        assert s == "-" + u;
      } else {
        assert s == u;
      }
    }
    assert ScanRadix(u) == (10, u) by {
      if |u| >= 2 && u[0] == '0' {
        assert d == "0";
        assert u[1] == rest[0];
      }
    }
    ReadDigitsOfRendered(z < 0, n, rest);
  }

  /** `parseInt` yields `NaN` for a string without a decimal digit (a hex prefix starts with `0`). */
  lemma ParseIntWithoutDigits(s: string)
    requires forall k :: 0 <= k < |s| ==> !IsDecimalDigit(s[k])
    ensures ParseInt(s) == None
  {
  }

  /** The number embedded after a known prefix in a text reads back with `parseInt`. */
  lemma ParseIntAfterPrefix(s: string, prefix: string, z: int, rest: string)
    requires s == prefix + IntToString(z) + rest
    requires rest == [] || !(IsDecimalDigit(rest[0]) || rest[0] == 'x' || rest[0] == 'X')
    ensures |prefix| <= |s| && s[..|prefix|] == prefix
    ensures ParseInt(s[|prefix|..]) == Some(z)
  {
    assert s[|prefix|..] == IntToString(z) + rest;
    ParseIntOfRendered(z, rest);
  }
}
