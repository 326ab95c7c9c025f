/**
 * Character classes and string operations that the Python and JavaScript
 * sources get from their standard libraries: code-point string ordering
 * (Python's `sorted`), whitespace classes of Python's `\s` and JavaScript's
 * `parseInt`, substring search (`in`, `includes`), `join`, and decimal text.
 */
module Text {

  // ---------------------------------------------------------------------------
  // Character classes

  predicate IsAsciiLower(c: char) { 'a' <= c <= 'z' }
  predicate IsAsciiUpper(c: char) { 'A' <= c <= 'Z' }
  predicate IsAsciiDigit(c: char) { '0' <= c <= '9' }

  /** Upper-cases an ASCII letter and leaves every other character alone. */
  function AsciiUpper(c: char): (r: char)
    ensures IsAsciiLower(c) ==> IsAsciiUpper(r)
    ensures !IsAsciiLower(c) ==> r == c
    ensures !IsAsciiLower(r)
  {
    if IsAsciiLower(c) then (c as int - 32) as char else c
  }

  /** The characters Python's regular-expression class `\s` matches in a `str` pattern (those for which `str.isspace()` holds). */
  predicate IsPySpace(c: char) {
    var n := c as int;
    (0x09 <= n <= 0x0D) || (0x1C <= n <= 0x20) || n == 0x85 || n == 0xA0 || n == 0x1680
    || (0x2000 <= n <= 0x200A) || n == 0x2028 || n == 0x2029 || n == 0x202F || n == 0x205F || n == 0x3000
  }

  /** The characters JavaScript's `parseInt` skips before a number (WhiteSpace and LineTerminator of ECMA-262). */
  predicate IsJsSpace(c: char) {
    var n := c as int;
    n == 0x09 || n == 0x0A || n == 0x0B || n == 0x0C || n == 0x0D || n == 0x20 || n == 0xA0
    || n == 0x1680 || (0x2000 <= n <= 0x200A) || n == 0x2028 || n == 0x2029 || n == 0x202F
    || n == 0x205F || n == 0x3000 || n == 0xFEFF
  }

  // ---------------------------------------------------------------------------
  // Prefixes, suffixes, substrings

  predicate StartsWith(s: string, prefix: string) {
    |prefix| <= |s| && s[..|prefix|] == prefix
  }

  predicate EndsWith(s: string, suffix: string) {
    |suffix| <= |s| && s[|s| - |suffix|..] == suffix
  }

  lemma StartsWithAppend(a: string, b: string)
    ensures StartsWith(a + b, a)
  {
    assert (a + b)[..|a|] == a;
  }

  lemma StartsWithExtend(a: string, b: string, prefix: string)
    requires StartsWith(a, prefix)
    ensures StartsWith(a + b, prefix)
  {
    assert (a + b)[..|prefix|] == a[..|prefix|];
  }

  lemma EndsWithAppend(a: string, b: string)
    ensures EndsWith(a + b, b)
  {
    assert (a + b)[|a + b| - |b|..] == b;
  }

  /** `needle in hay` (Python) or `hay.includes(needle)` (JavaScript). */
  predicate Contains(hay: string, needle: string) {
    exists i :: 0 <= i <= |hay| - |needle| && OccursAt(hay, needle, i)
  }

  /** `needle` occurs in `hay` starting at index `i`. */
  predicate OccursAt(hay: string, needle: string, i: int)
    requires 0 <= i <= |hay| - |needle|
  {
    hay[i..i + |needle|] == needle
  }

  lemma ContainsEmpty(hay: string)
    ensures Contains(hay, "")
  {
    assert OccursAt(hay, "", 0);
  }

  /** Python's `s.split("-")[0]`: everything before the first '-', or all of `s`. */
  function BeforeFirstDash(s: string): (r: string)
    ensures StartsWith(s, r)
    ensures '-' !in r
    ensures |r| < |s| ==> s[|r|] == '-'
  {
    if s == [] then "" else if s[0] == '-' then "" else [s[0]] + BeforeFirstDash(s[1..])
  }

  // ---------------------------------------------------------------------------
  // Joining

  /** `parts.join(sep)` / `sep.join(parts)`, defined by peeling the last part, as a loop that pushes would build it. */
  function Join(parts: seq<string>, sep: string): string
  {
    if |parts| == 0 then ""
    else if |parts| == 1 then parts[0]
    else Join(parts[..|parts| - 1], sep) + sep + parts[|parts| - 1]
  }

  lemma {:induction false} JoinLength(parts: seq<string>, sep: string, total: nat)
    requires total == SumLengths(parts)
    ensures |Join(parts, sep)| == total + (if |parts| == 0 then 0 else (|parts| - 1) * |sep|)
  {
    if |parts| > 1 {
      var init := parts[..|parts| - 1];
      SumLengthsSnoc(init, parts[|parts| - 1]);
      assert init + [parts[|parts| - 1]] == parts;
      JoinLength(init, sep, SumLengths(init));
    } else if |parts| == 1 {
      assert parts == [] + [parts[0]];
      SumLengthsSnoc([], parts[0]);
    }
  }

  function SumLengths(parts: seq<string>): nat
  {
    if parts == [] then 0 else |parts[0]| + SumLengths(parts[1..])
  }

  lemma {:induction false} SumLengthsSnoc(parts: seq<string>, last: string)
    ensures SumLengths(parts + [last]) == SumLengths(parts) + |last|
  {
    if parts != [] {
      assert (parts + [last])[1..] == parts[1..] + [last];
      SumLengthsSnoc(parts[1..], last);
    }
  }

  /** Joining then appending one more part is joining the longer list. */
  lemma JoinSnoc(parts: seq<string>, sep: string, last: string)
    requires parts != []
    ensures Join(parts + [last], sep) == Join(parts, sep) + sep + last
  {
    assert (parts + [last])[..|parts|] == parts;
  }

  lemma JoinFirst(parts: seq<string>, sep: string)
    requires parts != []
    ensures StartsWith(Join(parts, sep), parts[0])
  {
    if |parts| > 1 {
      JoinFirst(parts[..|parts| - 1], sep);
    }
  }

  // ---------------------------------------------------------------------------
  // Decimal text

  function DigitChar(d: int): (c: char)
    requires 0 <= d < 10
    ensures IsAsciiDigit(c)
  {
    ('0' as int + d) as char
  }

  /** The decimal text of a natural number (JavaScript/Python number-to-string on an integer). */
  function NatToDecimal(n: nat): (s: string)
    ensures |s| >= 1
    ensures forall i :: 0 <= i < |s| ==> IsAsciiDigit(s[i])
  {
    if n < 10 then [DigitChar(n)] else NatToDecimal(n / 10) + [DigitChar(n % 10)]
  }

  /** The value of a string of decimal digits; inverse of `NatToDecimal`. */
  function DecimalValue(s: string): nat
    requires forall i :: 0 <= i < |s| ==> IsAsciiDigit(s[i])
  {
    if s == [] then 0 else DecimalValue(s[..|s| - 1]) * 10 + DigitValue(s[|s| - 1])
  }

  function DigitValue(c: char): (d: nat)
    requires IsAsciiDigit(c)
    ensures d < 10 && DigitChar(d) == c
  {
    c as int - '0' as int
  }

  lemma {:induction false} DecimalRoundTrip(n: nat)
    ensures DecimalValue(NatToDecimal(n)) == n
  {
    if n >= 10 {
      var s := NatToDecimal(n);
      assert s[..|s| - 1] == NatToDecimal(n / 10);
      DecimalRoundTrip(n / 10);
    }
  }

  /** The decimal text of an integer, with a leading '-' when negative. */
  function IntToDecimal(n: int): string
  {
    if n < 0 then "-" + NatToDecimal(-n) else NatToDecimal(n)
  }

  // ---------------------------------------------------------------------------
  // Code-point order on strings (Python's `<` on `str`)

  predicate StrLt(a: string, b: string)
  {
    if a == [] then b != []
    else if b == [] then false
    else if a[0] < b[0] then true
    else if a[0] == b[0] then StrLt(a[1..], b[1..])
    else false
  }

  lemma {:induction false} StrLtIrreflexive(a: string)
    ensures !StrLt(a, a)
  {
    if a != [] {
      StrLtIrreflexive(a[1..]);
    }
  }

  lemma {:induction false} StrLtTransitive(a: string, b: string, c: string)
    requires StrLt(a, b) && StrLt(b, c)
    ensures StrLt(a, c)
  {
    if a != [] && b != [] && c != [] && a[0] == b[0] && b[0] == c[0] {
      StrLtTransitive(a[1..], b[1..], c[1..]);
    }
  }

  lemma {:induction false} StrLtTotal(a: string, b: string)
    requires a != b
    ensures StrLt(a, b) || StrLt(b, a)
  {
    if a != [] && b != [] && a[0] == b[0] {
      assert a == [a[0]] + a[1..] && b == [b[0]] + b[1..];
      StrLtTotal(a[1..], b[1..]);
    }
  }
}
