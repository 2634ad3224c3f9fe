/** Character and text helpers the settings model relies on: decimal digits
    (QString::number / QString::toInt on a 32-bit int), ASCII case folding and
    splitting a string on a separator character. */
module Strings {

  /** The bounds of a C++ `int`, which every spin box and slider value is. */
  const IntMin: int := -0x8000_0000
  const IntMax: int := 0x7fff_ffff

  predicate IsDigit(c: char) {
    '0' <= c <= '9'
  }

  predicate AllDigits(s: string) {
    forall i :: 0 <= i < |s| ==> IsDigit(s[i])
  }

  function DigitValue(c: char): (d: nat)
    requires IsDigit(c)
    ensures d < 10
  {
    c as int - '0' as int
  }

  function DigitChar(d: nat): (c: char)
    requires d < 10
    ensures IsDigit(c) && DigitValue(c) == d
  {
    ('0' as int + d) as char
  }

  /** The value of a string of decimal digits, most significant digit first. */
  function DigitsValue(s: string): nat
    requires AllDigits(s)
  {
    if |s| == 0 then 0 else DigitsValue(s[..|s| - 1]) * 10 + DigitValue(s[|s| - 1])
  }

  /** The decimal text of a natural number, without leading zeros. */
  function NatText(n: nat): (s: string)
    ensures 1 <= |s| && AllDigits(s)
    ensures DigitsValue(s) == n
  {
    if n < 10 then [DigitChar(n)]
    else
      var s := NatText(n / 10) + [DigitChar(n % 10)];
      assert s[..|s| - 1] == NatText(n / 10);
      s
  }

  /** The decimal text of an integer, with a leading '-' when negative. */
  function IntText(i: int): string {
    if i < 0 then "-" + NatText(-i) else NatText(i)
  }

  /** An optional '+' or '-' followed by one or more decimal digits. */
  predicate Numeral(s: string) {
    || (|s| >= 1 && AllDigits(s))
    || (|s| >= 2 && (s[0] == '-' || s[0] == '+') && AllDigits(s[1..]))
  }

  /** The value a numeral denotes. */
  function NumeralValue(s: string): int
    requires Numeral(s)
  {
    if s[0] == '-' then -(DigitsValue(s[1..]) as int)
    else if s[0] == '+' then DigitsValue(s[1..])
    else DigitsValue(s)
  }

  /** Reading a 32-bit int from text: an optional sign followed by one or
      more decimal digits whose value fits in an `int`; any other text reads
      as 0, as a failed conversion does. */
  function TextToInt(s: string): (n: int)
    ensures IntMin <= n <= IntMax
    ensures Numeral(s) && IntMin <= NumeralValue(s) <= IntMax ==> n == NumeralValue(s)
    ensures !Numeral(s) ==> n == 0
    ensures Numeral(s) && !(IntMin <= NumeralValue(s) <= IntMax) ==> n == 0
  {
    if |s| >= 2 && (s[0] == '-' || s[0] == '+') && AllDigits(s[1..]) then
      var m: int := if s[0] == '-' then -(DigitsValue(s[1..]) as int) else DigitsValue(s[1..]);
      if IntMin <= m <= IntMax then m else 0
    else if |s| >= 1 && AllDigits(s) && DigitsValue(s) <= IntMax then DigitsValue(s)
    else 0
  }

  /** Leading zeros do not change the value of a digit string. */
  lemma {:induction false} LeadingZeroDigits(s: string)
    requires AllDigits(s)
    ensures AllDigits("0" + s) && DigitsValue("0" + s) == DigitsValue(s)
    decreases |s|
  {
    var z := "0" + s;
    if |s| > 0 {
      assert z[..|z| - 1] == "0" + s[..|s| - 1];
      LeadingZeroDigits(s[..|s| - 1]);
    }
  }

  /** A leading '+' or a leading zero before the digits does not change the
      int a text reads as. */
  lemma SignAndZerosIgnored(s: string)
    requires |s| >= 1 && AllDigits(s)
    ensures TextToInt("+" + s) == TextToInt(s)
    ensures TextToInt("0" + s) == TextToInt(s)
  {
    assert ("+" + s)[1..] == s;
    LeadingZeroDigits(s);
  }

  /** Writing an int as text and reading it back yields the same int. */
  lemma TextToIntOfIntText(i: int)
    requires IntMin <= i <= IntMax
    ensures TextToInt(IntText(i)) == i
  {
    if i < 0 {
      var s := IntText(i);
      assert s[1..] == NatText(-i);
    } else {
      var s := NatText(i);
      assert IsDigit(s[0]);
    }
  }

  function LowerChar(c: char): char {
    if 'A' <= c <= 'Z' then (c as int + 32) as char else c
  }

  /** Lower-case folding of the ASCII letters; every other character is kept. */
  function Lower(s: string): (r: string)
    ensures |r| == |s|
    ensures forall i :: 0 <= i < |s| ==> r[i] == LowerChar(s[i])
  {
    seq(|s|, i requires 0 <= i < |s| => LowerChar(s[i]))
  }

  /** The fields of `s` between occurrences of `sep`, as QString::split keeps
      them (empty fields included, so there is always at least one). */
  function Split(s: string, sep: char): (fields: seq<string>)
    ensures |fields| >= 1
  {
    if |s| == 0 then [[]]
    else
      var rest := Split(s[1..], sep);
      if s[0] == sep then [[]] + rest
      else [[s[0]] + rest[0]] + rest[1..]
  }

  /** A string without the separator is a single field. */
  lemma {:induction false} SplitWithoutSep(s: string, sep: char)
    requires sep !in s
    ensures Split(s, sep) == [s]
  {
    if |s| > 0 {
      assert sep !in s[1..];
      SplitWithoutSep(s[1..], sep);
      assert [s[0]] + s[1..] == s;
    }
  }

  /** A separator preceded by a separator-free prefix ends the first field. */
  lemma {:induction false} SplitAtSep(a: string, sep: char, b: string)
    requires sep !in a
    ensures Split(a + [sep] + b, sep) == [a] + Split(b, sep)
  {
    var s := a + [sep] + b;
    if |a| == 0 {
      assert s[1..] == b;
    } else {
      assert s[1..] == a[1..] + [sep] + b;
      assert sep !in a[1..];
      SplitAtSep(a[1..], sep, b);
      assert [a[0]] + a[1..] == a;
    }
  }

  /** The position of the first separator in a string that holds one. */
  lemma {:induction false} FirstSep(s: string, sep: char) returns (k: nat)
    requires sep in s
    ensures k < |s| && s[k] == sep && sep !in s[..k]
    ensures s == s[..k] + [sep] + s[k + 1..]
  {
    if s[0] == sep {
      k := 0;
    } else {
      assert sep in s[1..];
      var j := FirstSep(s[1..], sep);
      k := j + 1;
      assert s[..k] == [s[0]] + s[1..][..j];
    }
  }

  /** More than one field means the separator occurs. */
  lemma SplitFieldsMeanSep(s: string, sep: char)
    requires |Split(s, sep)| >= 2
    ensures sep in s
  {
    if sep !in s {
      SplitWithoutSep(s, sep);
    }
  }
}
