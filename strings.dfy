/** The JavaScript string operations the sources rely on, on strings as
    sequences of characters. Case mapping covers ASCII letters only. */
module Strings {

  predicate IsDigit(c: char) {
    '0' <= c <= '9'
  }

  predicate AllDigits(s: string) {
    forall i :: 0 <= i < |s| ==> IsDigit(s[i])
  }

  /** `c.toUpperCase()` for one character. */
  function ToUpperAscii(c: char): char {
    if 'a' <= c <= 'z' then (c as int - 32) as char else c
  }

  /** `c.toLowerCase()` for one character. */
  function ToLowerAscii(c: char): char {
    if 'A' <= c <= 'Z' then (c as int + 32) as char else c
  }

  /** `s.toLowerCase()`. */
  function ToLower(s: string): (r: string)
    ensures |r| == |s|
    ensures forall i :: 0 <= i < |s| ==> r[i] == ToLowerAscii(s[i])
  {
    seq(|s|, i requires 0 <= i < |s| => ToLowerAscii(s[i]))
  }

  /** `s.replace(pattern, replacement)` with a plain pattern: only the first
      occurrence is replaced. */
  function ReplaceFirst(s: string, pattern: string, replacement: string): string
    requires pattern != []
  {
    if |s| < |pattern| then s
    else if s[..|pattern|] == pattern then replacement + s[|pattern|..]
    else [s[0]] + ReplaceFirst(s[1..], pattern, replacement)
  }

  /** Replacing a one-character pattern rewrites exactly its first occurrence,
      and leaves a string without it unchanged. */
  lemma {:induction false} ReplaceFirstChar(a: string, c: char, b: string, replacement: string)
    requires c !in a
    ensures ReplaceFirst(a + [c] + b, [c], replacement) == a + replacement + b
    ensures ReplaceFirst(a, [c], replacement) == a
  {
    if a != [] {
      ReplaceFirstChar(a[1..], c, b, replacement);
      var s := a + [c] + b;
      assert s[0] == a[0] && a[0] != c;
      assert s[..1] != [c] && a[..1] != [c];
      assert s[1..] == a[1..] + [c] + b;
      assert [a[0]] + a[1..] == a;
    }
  }

  /** `s.endsWith(suffix)`. */
  predicate EndsWith(s: string, suffix: string) {
    |suffix| <= |s| && s[|s| - |suffix|..] == suffix
  }

  /** The run of decimal digits at the end of `s` (the match of `/\d+$/`,
      or the empty string when there is none). */
  function TrailingDigits(s: string): (d: string)
    ensures |d| <= |s| && s[|s| - |d|..] == d
    ensures AllDigits(d)
    ensures |d| < |s| ==> !IsDigit(s[|s| - |d| - 1])
  {
    if s == [] || !IsDigit(s[|s| - 1]) then []
    else TrailingDigits(s[..|s| - 1]) + [s[|s| - 1]]
  }

  /** `s.replace(/\d+$/, '')`. */
  function WithoutTrailingDigits(s: string): (b: string)
    ensures b + TrailingDigits(s) == s
    ensures b == [] || !IsDigit(b[|b| - 1])
  {
    s[..|s| - |TrailingDigits(s)|]
  }

  /** A digit run appended to a string that does not end in a digit is
      exactly what `TrailingDigits` recovers. */
  lemma {:induction false} TrailingDigitsOfConcat(b: string, d: string)
    requires b == [] || !IsDigit(b[|b| - 1])
    requires AllDigits(d)
    ensures TrailingDigits(b + d) == d
    ensures WithoutTrailingDigits(b + d) == b
  {
    if d != [] {
      var init := d[..|d| - 1];
      TrailingDigitsOfConcat(b, init);
      assert (b + d)[..|b + d| - 1] == b + init;
    } else {
      assert b + d == b;
    }
  }

  function DigitChar(d: nat): (c: char)
    requires d < 10
    ensures IsDigit(c)
  {
    ('0' as int + d) as char
  }

  /** The decimal numeral of a natural number. */
  function NatToString(n: nat): (s: string)
    ensures |s| > 0 && AllDigits(s)
  {
    if n < 10 then [DigitChar(n)] else NatToString(n / 10) + [DigitChar(n % 10)]
  }

  /** `String(n)` / `${n}` for an integer `n`. */
  function IntToString(n: int): (s: string)
    ensures |s| > 0
    ensures n >= 0 ==> AllDigits(s)
  {
    if n < 0 then "-" + NatToString(-n) else NatToString(n)
  }

  /** `parts.join(separator)`. */
  function Join(parts: seq<string>, separator: string): string {
    if parts == [] then ""
    else if |parts| == 1 then parts[0]
    else Join(parts[..|parts| - 1], separator) + separator + parts[|parts| - 1]
  }
}
