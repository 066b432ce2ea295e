/**
 * Text helpers that stand for the QString operations the protocol code relies on:
 * prefix tests, `left`/`right`, `split` with empty parts kept, case-insensitive
 * `contains`, and the numeric conversions `toInt`, `toUInt` and `toDouble`
 * (which yield 0 when the text is not a number), plus the decimal rendering
 * that `QString::arg` applies to an unsigned key.
 */
module Text {

  const MinInt32: int := -0x8000_0000
  const MaxInt32: int := 0x7FFF_FFFF
  const MaxUInt32: int := 0xFFFF_FFFF

  predicate StartsWith(s: string, prefix: string) {
    |prefix| <= |s| && s[..|prefix|] == prefix
  }

  /** QString::right(n): the last n characters, or the whole string when n is negative or too large. */
  function Right(s: string, n: int): (r: string)
    ensures |r| <= |s|
  {
    if n < 0 || n >= |s| then s else s[|s| - n..]
  }

  /** QString::left(n): the first n characters, or the whole string when n is negative or too large. */
  function Left(s: string, n: int): (r: string)
    ensures |r| <= |s|
  {
    if n < 0 || n >= |s| then s else s[..n]
  }

  /** The text between the first and the last character, as `right(size-1)` then `left(size-1)` cut it. */
  function Inner(s: string): (r: string)
    ensures |s| >= 2 ==> r == s[1..|s| - 1]
    ensures |s| < 2 ==> r == ""
  {
    var tail := Right(s, |s| - 1);
    Left(tail, |tail| - 1)
  }

  /** QString::split(sep, KeepEmptyParts): every separator cuts, empty pieces are kept. */
  function Split(s: string, sep: char): (r: seq<string>)
    ensures |r| >= 1
    ensures forall i :: 0 <= i < |r| ==> sep !in r[i]
    decreases |s|
  {
    if |s| == 0 then [""]
    else if s[0] == sep then [""] + Split(s[1..], sep)
    else
      var rest := Split(s[1..], sep);
      [[s[0]] + rest[0]] + rest[1..]
  }

  /** The inverse of Split: glue the pieces back together with the separator. */
  function Join(parts: seq<string>, sep: char): string
    decreases |parts|
  {
    if |parts| == 0 then ""
    else if |parts| == 1 then parts[0]
    else parts[0] + [sep] + Join(parts[1..], sep)
  }

  lemma {:induction false} SplitJoin(s: string, sep: char)
    ensures Join(Split(s, sep), sep) == s
    decreases |s|
  {
    if |s| == 0 {
    } else if s[0] == sep {
      SplitJoin(s[1..], sep);
      var rest := Split(s[1..], sep);
      assert Split(s, sep) == [""] + rest;
      assert ([""] + rest)[1..] == rest;
      assert s == [sep] + s[1..];
    } else {
      SplitJoin(s[1..], sep);
      var rest := Split(s[1..], sep);
      if |rest| == 1 {
        assert Join(rest, sep) == rest[0];
      } else {
        assert Join(rest, sep) == rest[0] + [sep] + Join(rest[1..], sep);
        assert ([[s[0]] + rest[0]] + rest[1..])[1..] == rest[1..];
      }
      assert s == [s[0]] + s[1..];
    }
  }

  /** A piece free of the separator splits to itself. */
  lemma {:induction false} SplitWithoutSeparator(s: string, sep: char)
    requires sep !in s
    ensures Split(s, sep) == [s]
    decreases |s|
  {
    if |s| > 0 {
      SplitWithoutSeparator(s[1..], sep);
      assert [s[0]] + s[1..] == s;
    }
  }

  /** Cutting at the first separator: `a` free of the separator comes out as the first piece. */
  lemma {:induction false} SplitAtFirst(a: string, sep: char, b: string)
    requires sep !in a
    ensures Split(a + [sep] + b, sep) == [a] + Split(b, sep)
    decreases |a|
  {
    if |a| == 0 {
      assert a + [sep] + b == [sep] + b;
      assert ([sep] + b)[1..] == b;
    } else {
      var s := a + [sep] + b;
      assert s[0] == a[0];
      assert s[1..] == a[1..] + [sep] + b;
      SplitAtFirst(a[1..], sep, b);
      assert [a[0]] + a[1..] == a;
    }
  }

  function ToUpper(c: char): char {
    if 'a' <= c <= 'z' then (c as int - 32) as char else c
  }

  /** QString::contains(c, Qt::CaseInsensitive) for ASCII letters. */
  predicate ContainsFolded(s: string, c: char) {
    exists i :: 0 <= i < |s| && ToUpper(s[i]) == ToUpper(c)
  }

  /** QString::contains(two-letter string, Qt::CaseInsensitive). */
  predicate ContainsPairFolded(s: string, a: char, b: char) {
    exists i :: 0 <= i < |s| - 1 && ToUpper(s[i]) == ToUpper(a) && ToUpper(s[i + 1]) == ToUpper(b)
  }

  predicate IsDigit(c: char) {
    '0' <= c <= '9'
  }

  predicate AllDigits(s: string) {
    forall i :: 0 <= i < |s| ==> IsDigit(s[i])
  }

  /** The value of a run of decimal digits, most significant first. */
  function DigitsValue(s: string): nat
    requires AllDigits(s)
    decreases |s|
  {
    if |s| == 0 then 0
    else
      assert IsDigit(s[|s| - 1]);
      DigitsValue(s[..|s| - 1]) * 10 + (s[|s| - 1] as int - '0' as int)
  }

  /** QString::toInt(): an optional sign and at least one digit, inside the 32-bit range; 0 otherwise. */
  function ParseInt(s: string): int {
    var negative := |s| > 0 && s[0] == '-';
    var body := if |s| > 0 && (s[0] == '-' || s[0] == '+') then s[1..] else s;
    if |body| == 0 || !AllDigits(body) then 0
    else
      var v: int := if negative then -(DigitsValue(body) as int) else DigitsValue(body);
      if MinInt32 <= v <= MaxInt32 then v else 0
  }

  /** QString::toUInt(): an optional plus sign and at least one digit, inside the unsigned 32-bit range; 0 otherwise. */
  function ParseUInt(s: string): nat {
    var body := if |s| > 0 && s[0] == '+' then s[1..] else s;
    if |body| == 0 || !AllDigits(body) then 0
    else if DigitsValue(body) <= MaxUInt32 then DigitsValue(body)
    else 0
  }

  function Pow10(n: nat): (r: nat)
    ensures r >= 1
  {
    if n == 0 then 1 else 10 * Pow10(n - 1)
  }

  /** Digits with at most one decimal point and at least one digit. */
  predicate IsUnsignedDecimal(s: string) {
    var parts := Split(s, '.');
    (|parts| == 1 && |s| > 0 && AllDigits(s))
    || (|parts| == 2 && AllDigits(parts[0]) && AllDigits(parts[1]) && |parts[0]| + |parts[1]| > 0)
  }

  function UnsignedDecimalValue(s: string): real
    requires IsUnsignedDecimal(s)
  {
    var parts := Split(s, '.');
    if |parts| == 1 then DigitsValue(s) as real
    else DigitsValue(parts[0]) as real + DigitsValue(parts[1]) as real / Pow10(|parts[1]|) as real
  }

  /** QString::toDouble() on plain decimal text; 0.0 when the text is not a number. */
  function ParseReal(s: string): real {
    var signed := |s| > 0 && (s[0] == '-' || s[0] == '+');
    var body := if signed then s[1..] else s;
    if !IsUnsignedDecimal(body) then 0.0
    else if |s| > 0 && s[0] == '-' then -UnsignedDecimalValue(body)
    else UnsignedDecimalValue(body)
  }

  function DigitChar(d: nat): char
    requires d < 10
  {
    ('0' as int + d) as char
  }

  /** The canonical decimal rendering of a natural number, as `QString::arg` prints it. */
  function Decimal(n: nat): (r: string)
    ensures |r| >= 1 && AllDigits(r)
    decreases n
  {
    if n < 10 then [DigitChar(n)] else Decimal(n / 10) + [DigitChar(n % 10)]
  }

  /** Decimal text without superfluous leading zeros. */
  predicate IsCanonicalDecimal(s: string) {
    |s| >= 1 && AllDigits(s) && (s[0] == '0' ==> |s| == 1)
  }

  lemma {:induction false} DecimalValue(n: nat)
    ensures DigitsValue(Decimal(n)) == n
    ensures IsCanonicalDecimal(Decimal(n))
    decreases n
  {
    if n >= 10 {
      DecimalValue(n / 10);
      var d := Decimal(n / 10);
      var r := Decimal(n);
      assert r == d + [DigitChar(n % 10)];
      assert r[..|r| - 1] == d;
      assert r[0] == d[0];
      assert d[0] == '0' ==> |d| == 1;
    }
  }

  lemma {:induction false} LeadingDigitPositive(s: string)
    requires AllDigits(s) && |s| >= 1 && s[0] != '0'
    ensures DigitsValue(s) >= 1
    decreases |s|
  {
    if |s| > 1 {
      LeadingDigitPositive(s[..|s| - 1]);
    }
  }

  /** Canonical decimal text is exactly what Decimal prints for its value. */
  lemma {:induction false} CanonicalDecimalRoundTrip(s: string)
    requires IsCanonicalDecimal(s)
    ensures Decimal(DigitsValue(s)) == s
    decreases |s|
  {
    var v := DigitsValue(s);
    if |s| == 1 {
      assert s[..0] == [];
      assert v == DigitsValue(s[..0]) * 10 + (s[0] as int - '0' as int);
      assert Decimal(v) == [DigitChar(v)];
    } else {
      var p := s[..|s| - 1];
      var d := s[|s| - 1] as int - '0' as int;
      assert p[0] == s[0];
      LeadingDigitPositive(p);
      CanonicalDecimalRoundTrip(p);
      assert v == DigitsValue(p) * 10 + d;
      assert v / 10 == DigitsValue(p) && v % 10 == d;
      assert Decimal(v) == Decimal(v / 10) + [DigitChar(v % 10)];
      assert s == p + [s[|s| - 1]];
    }
  }

  /** toUInt reads back what Decimal prints, for every value that fits in 32 bits. */
  lemma ParseUIntDecimal(n: nat)
    requires n <= MaxUInt32
    ensures ParseUInt(Decimal(n)) == n
  {
    DecimalValue(n);
  }
}
