/**
 * The pieces of the .NET string library the supervisor relies on:
 * `String.Trim`, ordinal case-insensitive equality, and `Int32.TryParse` /
 * `Int64.TryParse` with the default `NumberStyles.Integer`, together with the
 * decimal rendering `Int32.ToString()` that `String.Format` uses.
 */
module Text {
  import opened Wrappers

  /** `Char.IsWhiteSpace`: the Unicode separators plus U+0009..U+000D and U+0085. */
  predicate IsWhiteSpace(c: char) {
    var n := c as int;
    || (0x09 <= n <= 0x0D) || n == 0x20 || n == 0x85 || n == 0xA0 || n == 0x1680
    || (0x2000 <= n <= 0x200A) || n == 0x2028 || n == 0x2029 || n == 0x202F
    || n == 0x205F || n == 0x3000
  }

  /** The white space `NumberStyles.Integer` skips around a number: U+0009..U+000D and U+0020. */
  predicate IsNumberWhite(c: char) {
    var n := c as int;
    (0x09 <= n <= 0x0D) || n == 0x20
  }

  predicate IsDigit(c: char) {
    '0' <= c <= '9'
  }

  predicate AllSatisfy(s: string, p: char -> bool) {
    forall i :: 0 <= i < |s| ==> p(s[i])
  }

  /** Number of leading characters of `s` that satisfy `p`. */
  function LeadingCount(s: string, p: char -> bool): (n: nat)
    ensures n <= |s|
    ensures AllSatisfy(s[..n], p)
    ensures n < |s| ==> !p(s[n])
  {
    if |s| == 0 || !p(s[0]) then 0
    else
      var k := LeadingCount(s[1..], p);
      assert s[..k + 1] == [s[0]] + s[1..][..k];
      1 + k
  }

  /** Number of trailing characters of `s` that satisfy `p`. */
  function TrailingCount(s: string, p: char -> bool): (n: nat)
    ensures n <= |s|
    ensures AllSatisfy(s[|s| - n..], p)
    ensures n < |s| ==> !p(s[|s| - n - 1])
  {
    if |s| == 0 || !p(s[|s| - 1]) then 0
    else
      var k := TrailingCount(s[..|s| - 1], p);
      assert s[|s| - (k + 1)..] == s[..|s| - 1][|s| - 1 - k..] + [s[|s| - 1]];
      1 + k
  }

  /** `r` sits at offset `i` of `s` and everything of `s` around it satisfies `p`. */
  predicate Framed(s: string, i: int, r: string, p: char -> bool) {
    && 0 <= i && i + |r| <= |s|
    && s[i..i + |r|] == r
    && AllSatisfy(s[..i], p)
    && AllSatisfy(s[i + |r|..], p)
  }

  /** `r` is `s` with a run of characters satisfying `p` cut from either end. */
  ghost predicate StrippedFrom(s: string, r: string, p: char -> bool) {
    exists i :: Framed(s, i, r, p)
  }

  /** `s` with every leading and trailing character satisfying `p` removed. */
  function Strip(s: string, p: char -> bool): (r: string)
    ensures |r| <= |s|
    ensures r == [] || (!p(r[0]) && !p(r[|r| - 1]))
    ensures StrippedFrom(s, r, p)
  {
    var a := LeadingCount(s, p);
    var b := TrailingCount(s[a..], p);
    StripFrames(s, p, a, b);
    s[a..|s| - b]
  }

  /** Cutting the leading run `a` and then the trailing run `b` of what remains leaves a framed core. */
  lemma StripFrames(s: string, p: char -> bool, a: nat, b: nat)
    requires a <= |s| && AllSatisfy(s[..a], p) && (a < |s| ==> !p(s[a]))
    requires b <= |s| - a && AllSatisfy(s[a..][|s| - a - b..], p)
    requires b < |s| - a ==> !p(s[a..][|s| - a - b - 1])
    ensures var r := s[a..|s| - b];
            && Framed(s, a, r, p)
            && (r == [] || (!p(r[0]) && !p(r[|r| - 1])))
  {
    var r := s[a..|s| - b];
    assert s[a..a + |r|] == r;
    assert s[a + |r|..] == s[a..][|s| - a - b..];
    if r != [] {
      assert r[0] == s[a];
      assert r[|r| - 1] == s[a..][|s| - a - b - 1];
    }
  }

  /** `String.Trim()`. */
  function Trim(s: string): (r: string)
    ensures |r| <= |s|
    ensures r == [] || (!IsWhiteSpace(r[0]) && !IsWhiteSpace(r[|r| - 1]))
    ensures StrippedFrom(s, r, IsWhiteSpace)
  {
    Strip(s, IsWhiteSpace)
  }

  /** A string with no removable character at either end is left as it is. */
  lemma {:induction false} StripUnchanged(s: string, p: char -> bool)
    requires s == [] || (!p(s[0]) && !p(s[|s| - 1]))
    ensures Strip(s, p) == s
  {
    var a := LeadingCount(s, p);
    assert a == 0;
    assert s[a..] == s;
    var b := TrailingCount(s, p);
    assert b == 0;
  }

  /** Trimming twice is trimming once. */
  lemma TrimIdempotent(s: string)
    ensures Trim(Trim(s)) == Trim(s)
  {
    StripUnchanged(Trim(s), IsWhiteSpace);
  }

  /** Upper-casing under the ordinal case-insensitive comparison, on ASCII letters. */
  function UpperAscii(c: char): (u: char)
    ensures 'a' <= c <= 'z' ==> 'A' <= u <= 'Z' && u as int == c as int - 32
    ensures !('a' <= c <= 'z') ==> u == c
  {
    if 'a' <= c <= 'z' then (c as int - 32) as char else c
  }

  /** `a.Equals(b, StringComparison.OrdinalIgnoreCase)`. */
  predicate EqualsIgnoreCase(a: string, b: string) {
    && |a| == |b|
    && forall i :: 0 <= i < |a| ==> UpperAscii(a[i]) == UpperAscii(b[i])
  }

  /** An upper-case letter is matched by itself and its lower-case form only. */
  lemma UpperAsciiLetter(c: char, upper: char)
    requires 'A' <= upper <= 'Z'
    ensures UpperAscii(c) == upper <==> c == upper || c as int == upper as int + 32
  {
  }

  /** The handshake token "Ok" is accepted in exactly four spellings. */
  lemma {:induction false} OkSpellings(s: string)
    ensures EqualsIgnoreCase("Ok", s) <==> s in {"Ok", "OK", "ok", "oK"}
  {
    if EqualsIgnoreCase("Ok", s) {
      assert UpperAscii(s[0]) == 'O' && UpperAscii(s[1]) == 'K';
      UpperAsciiLetter(s[0], 'O');
      UpperAsciiLetter(s[1], 'K');
      assert s == [s[0], s[1]];
    }
  }

  /** `"false"` is matched by every casing of the word and by nothing else. */
  lemma {:induction false} FalseSpellings(s: string)
    ensures EqualsIgnoreCase("false", s) <==>
      (|s| == 5 && (s[0] == 'f' || s[0] == 'F') && (s[1] == 'a' || s[1] == 'A')
       && (s[2] == 'l' || s[2] == 'L') && (s[3] == 's' || s[3] == 'S') && (s[4] == 'e' || s[4] == 'E'))
  {
    if EqualsIgnoreCase("false", s) {
      assert UpperAscii(s[0]) == 'F' && UpperAscii(s[1]) == 'A' && UpperAscii(s[2]) == 'L';
      assert UpperAscii(s[3]) == 'S' && UpperAscii(s[4]) == 'E';
    }
  }

  // ----- integers -----

  const Int32Min: int := -0x8000_0000
  const Int32Max: int := 0x7FFF_FFFF
  const Int64Min: int := -0x8000_0000_0000_0000
  const Int64Max: int := 0x7FFF_FFFF_FFFF_FFFF

  function DigitValue(c: char): (d: nat)
    requires IsDigit(c)
    ensures d < 10
  {
    c as int - '0' as int
  }

  function DigitChar(d: nat): (c: char)
    requires d < 10
    ensures IsDigit(c) && DigitValue(c) == d
  {
    ('0' as int + d) as char
  }

  /** The value of a string of decimal digits, most significant first. */
  function DigitsValue(s: string): nat
    requires AllSatisfy(s, IsDigit)
  {
    if |s| == 0 then 0
    else
      assert AllSatisfy(s[..|s| - 1], IsDigit);
      DigitsValue(s[..|s| - 1]) * 10 + DigitValue(s[|s| - 1])
  }

  /** The decimal digits of `n`, without leading zeros. */
  function ShowNat(n: nat): (r: string)
    ensures |r| >= 1
    ensures AllSatisfy(r, IsDigit)
  {
    if n < 10 then [DigitChar(n)]
    else
      var p := ShowNat(n / 10);
      var r := p + [DigitChar(n % 10)];
      assert forall i :: 0 <= i < |r| ==> IsDigit(r[i]) by {
        forall i | 0 <= i < |r| ensures IsDigit(r[i]) {
          if i < |p| { assert r[i] == p[i]; }
        }
      }
      r
  }

  /** `n.ToString()` for an integer: a minus sign for negative values, then the digits. */
  function ShowInt(n: int): (r: string)
    ensures |r| >= 1
    ensures IsDigit(r[|r| - 1])
    ensures forall i :: 0 <= i < |r| ==> IsDigit(r[i]) || r[i] == '-'
  {
    if n < 0 then "-" + ShowNat(-n) else ShowNat(n)
  }

  /**
   * `TryParse` with `NumberStyles.Integer` into a type whose range is `lo..hi`:
   * optional white space, an optional sign, one or more ASCII digits, optional
   * white space, and a value in range. A null string never parses.
   */
  function ParseInteger(s: Option<string>, lo: int, hi: int): (r: Option<int>)
    ensures r.Some? ==> lo <= r.value <= hi
    ensures s.None? ==> r.None?
  {
    if s.None? then None else ParseSigned(Strip(s.value, IsNumberWhite), lo, hi)
  }

  /** An optional sign followed by one or more digits, with a value in `lo..hi`. */
  function ParseSigned(t: string, lo: int, hi: int): (r: Option<int>)
    ensures r.Some? ==> lo <= r.value <= hi
  {
    if |t| == 0 then None
    else
      var neg := t[0] == '-';
      var digits := if t[0] == '-' || t[0] == '+' then t[1..] else t;
      if |digits| == 0 || !AllSatisfy(digits, IsDigit) then None
      else
        var magnitude: int := DigitsValue(digits);
        var v := if neg then -magnitude else magnitude;
        if lo <= v <= hi then Some(v) else None
  }

  lemma {:induction false} DigitsValueShowNat(n: nat)
    ensures DigitsValue(ShowNat(n)) == n
  {
    if n >= 10 {
      var p := ShowNat(n / 10);
      var r := ShowNat(n);
      assert r == p + [DigitChar(n % 10)];
      assert r[..|r| - 1] == p;
      DigitsValueShowNat(n / 10);
    }
  }

  /** Every integer in range is read back from its own decimal rendering. */
  lemma ParseShowInt(n: int, lo: int, hi: int)
    requires lo <= n <= hi
    ensures ParseInteger(Some(ShowInt(n)), lo, hi) == Some(n)
  {
    var s := ShowInt(n);
    assert !IsNumberWhite(s[0]) && !IsNumberWhite(s[|s| - 1]);
    StripUnchanged(s, IsNumberWhite);
    ParseSignedShowInt(n, lo, hi);
  }

  lemma ParseSignedShowInt(n: int, lo: int, hi: int)
    requires lo <= n <= hi
    ensures ParseSigned(ShowInt(n), lo, hi) == Some(n)
  {
    var s := ShowInt(n);
    if n < 0 {
      assert s[0] == '-';
      assert s[1..] == ShowNat(-n);
      DigitsValueShowNat(-n);
    } else {
      assert s == ShowNat(n);
      assert IsDigit(s[0]);
      DigitsValueShowNat(n);
    }
  }

  /** Distinct integers render differently. */
  lemma ShowIntInjective(a: int, b: int)
    requires ShowInt(a) == ShowInt(b)
    ensures a == b
  {
    var lo := if a < b then a else b;
    var hi := if a < b then b else a;
    ParseShowInt(a, lo, hi);
    ParseShowInt(b, lo, hi);
  }

  /** A string holding no digit never parses. */
  lemma {:induction false} ParseNeedsDigit(s: string, lo: int, hi: int)
    requires forall i :: 0 <= i < |s| ==> !IsDigit(s[i])
    ensures ParseInteger(Some(s), lo, hi) == None
  {
    var t := Strip(s, IsNumberWhite);
    assert StrippedFrom(s, t, IsNumberWhite);
    var i :| Framed(s, i, t, IsNumberWhite);
    if |t| > 0 {
      var digits := if t[0] == '-' || t[0] == '+' then t[1..] else t;
      if |digits| > 0 {
        assert digits[0] in t;
        assert t[|t| - |digits|] == digits[0];
        assert s[i + |t| - |digits|] == digits[0];
      }
    }
  }
}
