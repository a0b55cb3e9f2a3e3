/**
 * Character classes and string operations that the validators, the suggestion
 * recogniser and the schema patterns need: digits, the whitespace that
 * JavaScript's `String.prototype.trim` and Python's `str.strip` remove,
 * trimming, UTF-16 length, prefix and suffix tests, and the two anchored
 * regular expressions of the schemas written out as scanners.
 */
module Text {

  predicate IsDigit(c: char) { '0' <= c <= '9' }

  predicate IsHexDigit(c: char) { IsDigit(c) || 'a' <= c <= 'f' || 'A' <= c <= 'F' }

  predicate AllDigits(s: string) { forall i :: 0 <= i < |s| ==> IsDigit(s[i]) }

  /** ECMAScript WhiteSpace and LineTerminator code points: what `trim()` removes. */
  predicate IsJsWhitespace(c: char) {
    var n := c as int;
    (0x09 <= n <= 0x0D) || n == 0x20 || n == 0xA0 || n == 0x1680 || (0x2000 <= n <= 0x200A)
    || n == 0x2028 || n == 0x2029 || n == 0x202F || n == 0x205F || n == 0x3000 || n == 0xFEFF
  }

  /** Code points for which Python's `str.isspace()` holds: what `strip()` removes. */
  predicate IsPyWhitespace(c: char) {
    var n := c as int;
    (0x09 <= n <= 0x0D) || (0x1C <= n <= 0x20) || n == 0x85 || n == 0xA0 || n == 0x1680
    || (0x2000 <= n <= 0x200A) || n == 0x2028 || n == 0x2029 || n == 0x202F || n == 0x205F || n == 0x3000
  }

  /** How many leading characters satisfy `ws`. */
  function LeadingCount(s: string, ws: char -> bool): (k: nat)
    ensures k <= |s| && (forall i :: 0 <= i < k ==> ws(s[i])) && (k < |s| ==> !ws(s[k]))
  {
    if s != [] && ws(s[0]) then 1 + LeadingCount(s[1..], ws) else 0
  }

  /** How many trailing characters satisfy `ws`. */
  function TrailingCount(s: string, ws: char -> bool): (k: nat)
    ensures k <= |s| && (forall i :: |s| - k <= i < |s| ==> ws(s[i]))
    ensures k < |s| ==> !ws(s[|s| - k - 1])
  {
    if s != [] && ws(s[|s| - 1]) then 1 + TrailingCount(s[..|s| - 1], ws) else 0
  }

  /**
   * Removes whitespace (as `ws` defines it) from both ends. The result is the
   * infix of `s` that starts after the leading whitespace and is followed only
   * by whitespace; it is empty exactly when `s` is all whitespace.
   */
  function Trim(s: string, ws: char -> bool): (r: string)
    ensures LeadingCount(s, ws) + |r| <= |s|
    ensures r == s[LeadingCount(s, ws)..LeadingCount(s, ws) + |r|]
    ensures forall i :: LeadingCount(s, ws) + |r| <= i < |s| ==> ws(s[i])
    ensures r != [] ==> !ws(r[0]) && !ws(r[|r| - 1])
    ensures r == [] <==> forall i :: 0 <= i < |s| ==> ws(s[i])
  {
    var k := LeadingCount(s, ws);
    if k == |s| then [] else s[k..|s| - TrailingCount(s, ws)]
  }

  /** JavaScript's `s.trim()`. */
  function JsTrim(s: string): string { Trim(s, IsJsWhitespace) }

  /** Python's `s.strip()`. */
  function PyStrip(s: string): string { Trim(s, IsPyWhitespace) }

  /** Trimming a trimmed string changes nothing. */
  lemma TrimIdempotent(s: string, ws: char -> bool)
    ensures Trim(Trim(s, ws), ws) == Trim(s, ws)
  {
    var r := Trim(s, ws);
    if r != [] {
      assert LeadingCount(r, ws) == 0;
      assert TrailingCount(r, ws) == 0;
    }
  }

  /**
   * JavaScript's `length`: the number of UTF-16 code units, which counts a code
   * point above U+FFFF twice. zod's `min`/`max` on strings compare this number.
   */
  function JsLength(s: string): (n: nat)
    ensures |s| <= n <= 2 * |s|
    ensures (forall i :: 0 <= i < |s| ==> (s[i] as int) < 0x1_0000) ==> n == |s|
  {
    if s == [] then 0
    else JsLength(s[..|s| - 1]) + (if (s[|s| - 1] as int) < 0x1_0000 then 1 else 2)
  }

  predicate StartsWith(s: string, prefix: string) {
    |prefix| <= |s| && s[..|prefix|] == prefix
  }

  /** JavaScript's `s.endsWith(suffix)`. */
  predicate EndsWith(s: string, suffix: string) {
    |suffix| <= |s| && s[|s| - |suffix|..] == suffix
  }

  lemma EndsWithConcat(stem: string, suffix: string)
    ensures EndsWith(stem + suffix, suffix)
  {
    assert (stem + suffix)[|stem + suffix| - |suffix|..] == suffix;
  }

  /** The number of digits `s` starts with. */
  function LeadingDigits(s: string): (n: nat)
    ensures n <= |s| && AllDigits(s[..n])
    ensures n < |s| ==> !IsDigit(s[n])
  {
    if s != [] && IsDigit(s[0]) then
      var n := 1 + LeadingDigits(s[1..]);
      assert s[..n] == [s[0]] + s[1..][..n - 1];
      n
    else 0
  }

  /**
   * A scanner for the anchored pattern `^-?\d{1,w}\.\d+$`: an optional minus
   * sign, one to `w` digits, a point, and at least one digit to the end.
   */
  predicate MatchesDecimal(s: string, w: nat) {
    var t := if s != [] && s[0] == '-' then s[1..] else s;
    var k := LeadingDigits(t);
    1 <= k <= w && k + 1 < |t| && t[k] == '.' && AllDigits(t[k + 1..])
  }

  /** The parts the pattern `^-?\d{1,w}\.\d+$` names. */
  ghost predicate DecimalParts(sign: string, whole: string, frac: string, w: nat) {
    (sign == "" || sign == "-") && 1 <= |whole| <= w && AllDigits(whole) && |frac| >= 1 && AllDigits(frac)
  }

  /** The pattern read as a grammar: `s` splits into its parts. */
  ghost predicate DecimalShape(s: string, w: nat) {
    exists sign, whole, frac :: DecimalParts(sign, whole, frac, w) && s == sign + whole + "." + frac
  }

  lemma {:induction false} LeadingDigitsBeforePoint(whole: string, rest: string)
    requires AllDigits(whole) && rest != [] && !IsDigit(rest[0])
    ensures LeadingDigits(whole + rest) == |whole|
  {
    if whole != [] {
      assert (whole + rest)[1..] == whole[1..] + rest;
      LeadingDigitsBeforePoint(whole[1..], rest);
    } else {
      assert whole + rest == rest;
    }
  }

  lemma MatchesDecimalHasShape(s: string, w: nat)
    requires MatchesDecimal(s, w)
    ensures DecimalShape(s, w)
  {
    var t := if s != [] && s[0] == '-' then s[1..] else s;
    var sign := if s != [] && s[0] == '-' then "-" else "";
    var k := LeadingDigits(t);
    var whole, frac := t[..k], t[k + 1..];
    assert t == whole + "." + frac;
    assert s == sign + t;
    assert DecimalParts(sign, whole, frac, w);
  }

  lemma ShapeMatchesDecimal(s: string, w: nat)
    requires DecimalShape(s, w)
    ensures MatchesDecimal(s, w)
  {
    var sign, whole, frac :| DecimalParts(sign, whole, frac, w) && s == sign + whole + "." + frac;
    var t := whole + "." + frac;
    assert s == sign + t;
    var t' := if s != [] && s[0] == '-' then s[1..] else s;
    assert t' == t by {
      if sign == "-" {
        assert s[0] == '-';
        assert s[1..] == t;
      } else {
        assert s == t;
        assert s[0] == whole[0];
        assert IsDigit(whole[0]);
      }
    }
    LeadingDigitsBeforePoint(whole, "." + frac);
    assert t == whole + ("." + frac);
    assert t[|whole|] == '.';
    assert t[|whole| + 1..] == frac;
  }

  /** The scanner accepts exactly the strings the grammar describes. */
  lemma MatchesDecimalIsShape(s: string, w: nat)
    ensures MatchesDecimal(s, w) <==> DecimalShape(s, w)
  {
    if MatchesDecimal(s, w) { MatchesDecimalHasShape(s, w); }
    if DecimalShape(s, w) { ShapeMatchesDecimal(s, w); }
  }

  /** The anchored pattern `^#[0-9A-Fa-f]{6}$`. */
  predicate IsHexColor(s: string) {
    |s| == 7 && s[0] == '#' && forall i :: 1 <= i < 7 ==> IsHexDigit(s[i])
  }
}
