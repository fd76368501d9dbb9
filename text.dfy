/** Strings, characters and machine integers as the Python and Kotlin sources
    see them: decimal rendering and parsing, Kotlin's `toIntOrNull`, Python's
    `str.strip`, literal splitting, prefix and suffix tests, and the 32- and
    64-bit wrap-around of Kotlin's `Int` and `Long`. */
module Text {
  import opened Wrappers

  const MinInt32: int := -0x8000_0000
  const MaxInt32: int := 0x7fff_ffff
  const MinInt64: int := -0x8000_0000_0000_0000
  const MaxInt64: int := 0x7fff_ffff_ffff_ffff

  /** Kotlin `Int`. */
  type Int32 = x: int | MinInt32 <= x <= MaxInt32
  /** Kotlin `Long`. */
  type Int64 = x: int | MinInt64 <= x <= MaxInt64

  /** Two's-complement wrap-around of an exact result into `Int`. */
  function Wrap32(x: int): (r: Int32)
    ensures MinInt32 <= x <= MaxInt32 ==> r == x
    ensures (r - x) % 0x1_0000_0000 == 0
  {
    (x - MinInt32) % 0x1_0000_0000 + MinInt32
  }

  /** Two's-complement wrap-around of an exact result into `Long`. */
  function Wrap64(x: int): (r: Int64)
    ensures MinInt64 <= x <= MaxInt64 ==> r == x
    ensures (r - x) % 0x1_0000_0000_0000_0000 == 0
  {
    (x - MinInt64) % 0x1_0000_0000_0000_0000 + MinInt64
  }

  // ---------------------------------------------------------------- digits

  predicate IsDigit(c: char) { '0' <= c <= '9' }

  predicate AllDigits(s: string) { forall i :: 0 <= i < |s| ==> IsDigit(s[i]) }

  function DigitValue(c: char): nat
    requires IsDigit(c)
  {
    (c as int) - ('0' as int)
  }

  function DigitChar(d: nat): (c: char)
    requires d < 10
    ensures IsDigit(c) && DigitValue(c) == d
  {
    ((d + '0' as int) as char)
  }

  /** The value of a run of decimal digits, most significant first. */
  function DigitsValue(s: string): nat
    requires AllDigits(s)
  {
    if |s| == 0 then 0 else DigitsValue(s[..|s| - 1]) * 10 + DigitValue(s[|s| - 1])
  }

  /** Decimal rendering of a natural number, as Python's `str(n)` and Kotlin's
      string templates print it: no sign, no leading zero. */
  function NatToString(n: nat): (s: string)
    ensures |s| >= 1 && AllDigits(s)
    ensures n >= 10 ==> s[0] != '0'
  {
    if n < 10 then [DigitChar(n)] else NatToString(n / 10) + [DigitChar(n % 10)]
  }

  /** Decimal rendering of an integer: a leading '-' for negative values. */
  function IntToString(i: int): string
  {
    if i < 0 then "-" + NatToString(-i) else NatToString(i)
  }

  lemma {:induction false} NatToStringValue(n: nat)
    ensures DigitsValue(NatToString(n)) == n
  {
    if n >= 10 {
      var s := NatToString(n);
      assert s[..|s| - 1] == NatToString(n / 10);
      NatToStringValue(n / 10);
    }
  }

  /** Kotlin's `String.toIntOrNull()` restricted to ASCII digits: an optional
      '+' or '-' and at least one digit, whose value must fit in `Int`. */
  function ToIntOrNull(s: string): (r: Option<Int32>)
    ensures r.Some? ==> |s| >= 1
  {
    if |s| == 0 then None
    else if s[0] < '0' then
      if |s| == 1 || (s[0] != '-' && s[0] != '+') || !AllDigits(s[1..]) then None
      else
        var v: int := DigitsValue(s[1..]);
        if s[0] == '-' then (if -v >= MinInt32 then Some(-v) else None)
        else (if v <= MaxInt32 then Some(v) else None)
    else if !AllDigits(s) then None
    else if DigitsValue(s) <= MaxInt32 then Some(DigitsValue(s))
    else None
  }

  /** Kotlin's `String.toLongOrNull()`, with the same restriction. */
  function ToLongOrNull(s: string): (r: Option<Int64>)
    ensures r.Some? ==> |s| >= 1
  {
    if |s| == 0 then None
    else if s[0] < '0' then
      if |s| == 1 || (s[0] != '-' && s[0] != '+') || !AllDigits(s[1..]) then None
      else
        var v: int := DigitsValue(s[1..]);
        if s[0] == '-' then (if -v >= MinInt64 then Some(-v) else None)
        else (if v <= MaxInt64 then Some(v) else None)
    else if !AllDigits(s) then None
    else if DigitsValue(s) <= MaxInt64 then Some(DigitsValue(s))
    else None
  }

  lemma ToIntOrNullOfDigits(s: string)
    requires |s| > 0 && AllDigits(s)
    ensures ToIntOrNull(s) == if DigitsValue(s) <= MaxInt32 then Some(DigitsValue(s)) else None
  {
    assert IsDigit(s[0]);
  }

  // ------------------------------------------------------------ whitespace

  /** Python's `str.isspace` for one character. */
  predicate IsPyWhitespace(c: char)
  {
    c == ' ' || ('\t' <= c <= '\r') || ('\U{1c}' <= c <= '\U{1f}') || c == '\U{85}'
    || c == '\U{a0}' || c == '\U{1680}' || ('\U{2000}' <= c <= '\U{200a}')
    || c == '\U{2028}' || c == '\U{2029}' || c == '\U{202f}' || c == '\U{205f}' || c == '\U{3000}'
  }

  /** Kotlin's `Char.isWhitespace` on the JVM: Python's set minus U+0085. */
  predicate IsKotlinWhitespace(c: char)
  {
    IsPyWhitespace(c) && c != '\U{85}'
  }

  /** Kotlin's `CharSequence.isBlank()`. */
  predicate IsBlank(s: string)
  {
    forall i :: 0 <= i < |s| ==> IsKotlinWhitespace(s[i])
  }

  function StripLeft(s: string): (r: string)
    ensures |r| <= |s| && r == s[|s| - |r|..]
    ensures r == [] || !IsPyWhitespace(r[0])
  {
    if |s| > 0 && IsPyWhitespace(s[0]) then StripLeft(s[1..]) else s
  }

  function StripRight(s: string): (r: string)
    ensures |r| <= |s| && r == s[..|r|]
    ensures r == [] || !IsPyWhitespace(r[|r| - 1])
  {
    if |s| > 0 && IsPyWhitespace(s[|s| - 1]) then StripRight(s[..|s| - 1]) else s
  }

  /** Python's `str.strip()` with no argument. */
  function Strip(s: string): (r: string)
    ensures r == [] || (!IsPyWhitespace(r[0]) && !IsPyWhitespace(r[|r| - 1]))
  {
    StripRight(StripLeft(s))
  }

  // ------------------------------------------------------- string helpers

  predicate StartsWith(s: string, prefix: string)
  {
    |prefix| <= |s| && s[..|prefix|] == prefix
  }

  predicate EndsWith(s: string, suffix: string)
  {
    |suffix| <= |s| && s[|s| - |suffix|..] == suffix
  }

  predicate OccursAt(s: string, part: string, i: int)
  {
    0 <= i <= |s| - |part| && s[i..i + |part|] == part
  }

  /** Kotlin's `contains` for strings. */
  predicate Contains(s: string, part: string)
  {
    exists i | 0 <= i <= |s| :: OccursAt(s, part, i)
  }

  /** Kotlin's `removePrefix`. */
  function RemovePrefix(s: string, prefix: string): string
  {
    if StartsWith(s, prefix) then s[|prefix|..] else s
  }

  /** Kotlin's `removeSuffix`. */
  function RemoveSuffix(s: string, suffix: string): string
  {
    if EndsWith(s, suffix) then s[..|s| - |suffix|] else s
  }

  /** Kotlin's `replace(old, new)` for one-character strings. */
  function ReplaceChar(s: string, from: char, to: char): (r: string)
    ensures |r| == |s|
    ensures forall i :: 0 <= i < |s| ==> r[i] == (if s[i] == from then to else s[i])
  {
    if |s| == 0 then [] else [if s[0] == from then to else s[0]] + ReplaceChar(s[1..], from, to)
  }

  /** Splitting on a one-character separator, as Kotlin's `split(".")` and
      Python's `split("\n")` do: every separator cuts, empty pieces are kept. */
  function Split(s: string, sep: char): (r: seq<string>)
    ensures |r| >= 1
    ensures forall k :: 0 <= k < |r| ==> sep !in r[k]
  {
    if |s| == 0 then [""]
    else if s[0] == sep then [""] + Split(s[1..], sep)
    else
      var rest := Split(s[1..], sep);
      [[s[0]] + rest[0]] + rest[1..]
  }

  /** Lexicographic order by character code, as Kotlin's `String.compareTo`
      orders strings of the Basic Multilingual Plane. */
  predicate LexLessEq(a: string, b: string)
    decreases |a|
  {
    |a| == 0 || (|b| > 0 && (a[0] < b[0] || (a[0] == b[0] && LexLessEq(a[1..], b[1..]))))
  }

  /** Sequence concatenation is associative. */
  lemma AppendAssoc<T>(a: seq<T>, b: seq<T>, c: seq<T>)
    ensures (a + b) + c == a + (b + c)
  {
  }

  /** A concatenation starts with its first part. */
  lemma StartsWithAppend(a: string, b: string)
    ensures StartsWith(a + b, a)
  {
    assert (a + b)[..|a|] == a;
  }

  lemma {:induction false} LexTotal(a: string, b: string)
    ensures LexLessEq(a, b) || LexLessEq(b, a)
    decreases |a|
  {
    if |a| > 0 && |b| > 0 && a[0] == b[0] { LexTotal(a[1..], b[1..]); }
  }

  lemma {:induction false} LexTransitive(a: string, b: string, c: string)
    requires LexLessEq(a, b) && LexLessEq(b, c)
    ensures LexLessEq(a, c)
    decreases |a|
  {
    if |a| > 0 && a[0] == b[0] && b[0] == c[0] { LexTransitive(a[1..], b[1..], c[1..]); }
  }

  lemma {:induction false} LexAntisymmetric(a: string, b: string)
    requires LexLessEq(a, b) && LexLessEq(b, a)
    ensures a == b
    decreases |a|
  {
    if |a| > 0 {
      LexAntisymmetric(a[1..], b[1..]);
      assert a == [a[0]] + a[1..];
      assert b == [b[0]] + b[1..];
    }
  }
}
