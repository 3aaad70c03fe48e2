/**
 * The few pieces of JavaScript's string and number semantics that the
 * exporter relies on: `Number.parseInt` with no radix, `Number.prototype.toString`
 * for non-negative integers, `String.prototype.indexOf` and `String.prototype.split`
 * on a single separator character.
 */
module JsText {

  /** What `Number.parseInt` produces: NaN or an integral number. */
  datatype JsInt = NaN | Int(value: int)

  /** The characters that ECMAScript's TrimString removes: WhiteSpace and LineTerminator. */
  predicate IsWhiteSpace(c: char) {
    || c in {'\t', '\n', '\U{000B}', '\U{000C}', '\r', ' ', '\U{00A0}', '\U{1680}'}
    || c in {'\U{2028}', '\U{2029}', '\U{202F}', '\U{205F}', '\U{3000}', '\U{FEFF}'}
    || '\U{2000}' <= c <= '\U{200A}'
  }

  /** Leading white space removed. */
  function TrimStart(s: string): (r: string)
    ensures |r| <= |s| && r == s[|s| - |r|..]
    ensures forall i :: 0 <= i < |s| - |r| ==> IsWhiteSpace(s[i])
    ensures r == [] || !IsWhiteSpace(r[0])
  {
    if s != [] && IsWhiteSpace(s[0]) then TrimStart(s[1..]) else s
  }

  /** The value of a character read as a digit of radix up to 16, or -1. */
  function DigitValue(c: char): (d: int)
    ensures -1 <= d < 16
  {
    if '0' <= c <= '9' then c as int - '0' as int
    else if 'a' <= c <= 'f' then c as int - 'a' as int + 10
    else if 'A' <= c <= 'F' then c as int - 'A' as int + 10
    else -1
  }

  predicate IsDigit(c: char, radix: nat) {
    0 <= DigitValue(c) < radix
  }

  predicate AllDigits(s: string, radix: nat) {
    forall i :: 0 <= i < |s| ==> IsDigit(s[i], radix)
  }

  /** Length of the longest prefix of `s` made of radix digits. */
  function DigitRun(s: string, radix: nat): (n: nat)
    ensures n <= |s|
    ensures AllDigits(s[..n], radix)
    ensures n == |s| || !IsDigit(s[n], radix)
  {
    if s != [] && IsDigit(s[0], radix) then
      var n := 1 + DigitRun(s[1..], radix);
      assert s[..n] == [s[0]] + s[1..][..n - 1];
      n
    else 0
  }

  /** The number a string of radix digits denotes, most significant digit first. */
  function ValueOf(digits: string, radix: nat): nat
    requires AllDigits(digits, radix)
  {
    if digits == [] then 0
    else ValueOf(digits[..|digits| - 1], radix) * radix + DigitValue(digits[|digits| - 1])
  }

  /** The text after one leading sign character, if there is one. */
  function StripSign(t: string): string {
    if t != [] && (t[0] == '-' || t[0] == '+') then t[1..] else t
  }

  predicate HasHexPrefix(u: string) {
    |u| >= 2 && u[0] == '0' && (u[1] == 'x' || u[1] == 'X')
  }

  /** The longest run of radix digits at the start of `body`, read as a number; none is NaN. */
  function ParseDigits(body: string, radix: nat): JsInt {
    var n := DigitRun(body, radix);
    if n == 0 then NaN else Int(ValueOf(body[..n], radix))
  }

  function Negate(r: JsInt): JsInt {
    if r.NaN? then NaN else Int(-r.value)
  }

  /**
   * `Number.parseInt(s)` with the radix left undefined: leading white space is
   * skipped, one sign is read, a `0x`/`0X` prefix selects radix 16, and the
   * longest run of digits that follows is the value; no digit at all is NaN.
   * Negative zero is the integer 0 here.
   */
  function ParseInt(s: string): JsInt {
    var t := TrimStart(s);
    var u := StripSign(t);
    var magnitude := if HasHexPrefix(u) then ParseDigits(u[2..], 16) else ParseDigits(u, 10);
    if t != [] && t[0] == '-' then Negate(magnitude) else magnitude
  }

  function DigitChar(d: nat): (c: char)
    requires d < 10
    ensures IsDigit(c, 10) && DigitValue(c) == d
  {
    ('0' as int + d) as char
  }

  /** The decimal text JavaScript gives a non-negative integer (`String(n)`). */
  function DecimalString(n: nat): string {
    if n < 10 then [DigitChar(n)] else DecimalString(n / 10) + [DigitChar(n % 10)]
  }

  /** The decimal text of n is a non-empty run of digits that denotes n, with no leading zero. */
  lemma {:induction false} DecimalStringDenotes(n: nat)
    ensures var s := DecimalString(n);
      && |s| >= 1 && AllDigits(s, 10)
      && ValueOf(s, 10) == n
      && (n == 0 <==> s == "0")
      && (n > 0 ==> s[0] != '0')
  {
    if n >= 10 {
      var prefix := DecimalString(n / 10);
      DecimalStringDenotes(n / 10);
      var s := prefix + [DigitChar(n % 10)];
      assert s[..|s| - 1] == prefix;
    }
  }

  /** Reading back what `DecimalString` wrote: decimal text is never taken for hex. */
  lemma {:induction false} ParseIntDecimal(n: nat, rest: string)
    requires rest == [] || !IsDigit(rest[0], 10)
    requires n == 0 && rest != [] ==> rest[0] != 'x' && rest[0] != 'X'
    ensures ParseInt(DecimalString(n) + rest) == Int(n)
  {
    var d := DecimalString(n);
    DecimalStringDenotes(n);
    var s := d + rest;
    assert s[0] == d[0];
    assert !IsWhiteSpace(s[0]) by { assert '0' <= s[0] <= '9'; }
    assert TrimStart(s) == s;
    assert StripSign(s) == s;
    assert !HasHexPrefix(s) by {
      if |s| >= 2 && s[0] == '0' { assert n == 0 && |d| == 1 && s[1] == rest[0]; }
    }
    DigitRunOfDigits(d, rest, 10);
    assert s[..|d|] == d;
  }

  lemma {:induction false} DigitRunOfDigits(d: string, rest: string, radix: nat)
    requires AllDigits(d, radix)
    requires rest == [] || !IsDigit(rest[0], radix)
    ensures DigitRun(d + rest, radix) == |d|
  {
    if d != [] {
      assert (d + rest)[1..] == d[1..] + rest;
      DigitRunOfDigits(d[1..], rest, radix);
    }
  }

  /** Two decimal texts are equal only for equal numbers. */
  lemma DecimalStringInjective(m: nat, n: nat)
    requires DecimalString(m) == DecimalString(n)
    ensures m == n
  {
    DecimalStringDenotes(m);
    DecimalStringDenotes(n);
  }

  /** `pat` starts at position `j` of `s`. */
  predicate OccursAt(s: string, pat: string, j: int) {
    0 <= j && j + |pat| <= |s| && s[j..j + |pat|] == pat
  }

  /** `pat` occurs somewhere in `s`. */
  ghost predicate Contains(s: string, pat: string) {
    exists j :: OccursAt(s, pat, j)
  }

  /** `s.indexOf(pat, from)`: the first position at or after `from` where `pat` occurs, or -1. */
  function IndexOfFrom(s: string, pat: string, from: nat): (i: int)
    requires from <= |s|
    ensures i == -1 || (from <= i && OccursAt(s, pat, i))
    ensures i >= 0 ==> forall j :: from <= j < i ==> !OccursAt(s, pat, j)
    ensures i == -1 ==> forall j :: from <= j ==> !OccursAt(s, pat, j)
    decreases |s| - from
  {
    if from + |pat| > |s| then -1
    else if s[from..from + |pat|] == pat then from
    else IndexOfFrom(s, pat, from + 1)
  }

  /** `s.indexOf(pat)`: the first position of `pat` in `s`, or -1 when it does not occur. */
  function IndexOf(s: string, pat: string): (i: int)
    ensures i >= 0 <==> Contains(s, pat)
    ensures i >= 0 ==> OccursAt(s, pat, i) && forall j :: 0 <= j < i ==> !OccursAt(s, pat, j)
  {
    IndexOfFrom(s, pat, 0)
  }

  /** `s.split(sep)` for a one-character separator. */
  function Split(s: string, sep: char): (parts: seq<string>)
    ensures |parts| >= 1
    ensures forall k :: 0 <= k < |parts| ==> sep !in parts[k]
  {
    if s == [] then [[]]
    else
      var rest := Split(s[1..], sep);
      if s[0] == sep then [[]] + rest
      else [[s[0]] + rest[0]] + rest[1..]
  }

  /** Splitting after a separator-free first part yields that part, then the rest's parts. */
  lemma {:induction false} SplitAfter(a: string, sep: char, b: string)
    requires sep !in a
    ensures Split(a + [sep] + b, sep) == [a] + Split(b, sep)
  {
    if a != [] {
      assert (a + [sep] + b)[1..] == a[1..] + [sep] + b;
      SplitAfter(a[1..], sep, b);
      assert [a[0]] + a[1..] == a;
    } else {
      assert (a + [sep] + b)[1..] == b;
    }
  }

  /** A separator-free string is one part. */
  lemma {:induction false} SplitNone(a: string, sep: char)
    requires sep !in a
    ensures Split(a, sep) == [a]
  {
    if a != [] {
      SplitNone(a[1..], sep);
      assert [a[0]] + a[1..] == a;
    }
  }
}
