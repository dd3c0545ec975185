/**
 * Character-level helpers shared by the date text form and the stored line format:
 * decimal digits, printf-style integer rendering, and the scanning that the C
 * library's `%d` conversion and `getline` perform.
 */
module Text {
  import opened Wrappers

  predicate IsDigit(c: char) {
    '0' <= c <= '9'
  }

  function DigitValue(c: char): nat
    requires IsDigit(c)
  {
    c as int - '0' as int
  }

  function DigitChar(n: nat): (c: char)
    requires n < 10
    ensures IsDigit(c) && DigitValue(c) == n
  {
    (n + '0' as int) as char
  }

  predicate AllDigits(s: string) {
    forall i :: 0 <= i < |s| ==> IsDigit(s[i])
  }

  /** The value of a string of decimal digits, most significant digit first. */
  function Value(s: string): nat
    requires AllDigits(s)
  {
    if s == [] then 0 else 10 * Value(s[..|s| - 1]) + DigitValue(s[|s| - 1])
  }

  function Pow10(n: nat): (p: nat)
    ensures p >= 1
  {
    if n == 0 then 1 else 10 * Pow10(n - 1)
  }

  /** Decimal text of n without leading zeros, as `%d` or `<<` write a non-negative integer. */
  function NatText(n: nat): (s: string)
    ensures |s| >= 1 && AllDigits(s) && Value(s) == n
  {
    if n < 10 then [DigitChar(n)]
    else
      var s := NatText(n / 10) + [DigitChar(n % 10)];
      assert s[..|s| - 1] == NatText(n / 10);
      s
  }

  /** Decimal text of n zero-padded to exactly `width` digits, as `%0<width>d` writes a value below 10^width. */
  function Padded(n: nat, width: nat): (s: string)
    requires n < Pow10(width)
    ensures |s| == width && AllDigits(s) && Value(s) == n
  {
    if width == 0 then []
    else
      assert n / 10 < Pow10(width - 1);
      var s := Padded(n / 10, width - 1) + [DigitChar(n % 10)];
      assert s[..|s| - 1] == Padded(n / 10, width - 1);
      s
  }

  /** The characters C's `isspace` accepts in the default locale. */
  predicate IsSpace(c: char) {
    c == ' ' || c == '\t' || c == '\n' || c == '\r' || c == '\U{000B}' || c == '\U{000C}'
  }

  /** What is left of s after its leading white space. */
  function SkipSpace(s: string): (r: string)
    ensures |r| <= |s| && r == s[|s| - |r|..]
    ensures r == [] || !IsSpace(r[0])
    ensures forall i :: 0 <= i < |s| - |r| ==> IsSpace(s[i])
  {
    if s != [] && IsSpace(s[0]) then SkipSpace(s[1..]) else s
  }

  /** Length of the longest all-digit prefix of s. */
  function DigitRun(s: string): (k: nat)
    ensures k <= |s| && AllDigits(s[..k])
    ensures k < |s| ==> !IsDigit(s[k])
  {
    if s == [] || !IsDigit(s[0]) then 0
    else
      var k := 1 + DigitRun(s[1..]);
      assert s[..k] == [s[0]] + s[1..][..k - 1];
      k
  }

  /** Index of the first occurrence of c in s, or |s| when c does not occur. */
  function Find(s: string, c: char): (k: nat)
    ensures k <= |s|
    ensures forall i :: 0 <= i < k ==> s[i] != c
    ensures k < |s| ==> s[k] == c
  {
    if s == [] || s[0] == c then 0 else 1 + Find(s[1..], c)
  }

  /** C's `%d` conversion: skips white space, then reads an optional sign and at least one digit. */
  function ScanInt(s: string): Option<(int, string)>
  {
    var t := SkipSpace(s);
    var negative := |t| > 0 && t[0] == '-';
    var u := if |t| > 0 && (t[0] == '-' || t[0] == '+') then t[1..] else t;
    var k := DigitRun(u);
    if k == 0 then None
    else
      var v: int := Value(u[..k]);
      Some((if negative then -v else v, u[k..]))
  }

  /** A run of digits followed by a non-digit is read back as its value, leaving the rest. */
  lemma {:induction false} ScanIntOfDigits(d: string, rest: string)
    requires |d| > 0 && AllDigits(d)
    requires rest == [] || !IsDigit(rest[0])
    ensures ScanInt(d + rest) == Some((Value(d), rest))
  {
    var s := d + rest;
    assert IsDigit(s[0]) by { assert s[0] == d[0]; }
    assert !IsSpace(s[0]);
    assert SkipSpace(s) == s;
    assert s[0] != '-' && s[0] != '+';
    DigitRunOf(d, rest);
    assert s[..|d|] == d;
    assert s[|d|..] == rest;
    assert ScanInt(s) == Some((Value(s[..|d|]), s[|d|..]));
  }

  /** The digit run of a digit string followed by a non-digit is that digit string. */
  lemma {:induction false} DigitRunOf(d: string, rest: string)
    requires AllDigits(d)
    requires rest == [] || !IsDigit(rest[0])
    ensures DigitRun(d + rest) == |d|
  {
    var s := d + rest;
    var k := DigitRun(s);
    assert forall j :: 0 <= j < k ==> IsDigit(s[j]) by {
      forall j | 0 <= j < k ensures IsDigit(s[j]) { assert s[..k][j] == s[j]; }
    }
    if rest != [] {
      assert s[|d|] == rest[0];
    }
  }

  /** The text before the first c is found by Find, whatever follows c. */
  lemma {:induction false} FindFirst(p: string, c: char, rest: string)
    requires c !in p
    ensures Find(p + [c] + rest, c) == |p|
  {
    var s := p + [c] + rest;
    assert s[|p|] == c;
  }

  /** Find returns the length of a string that does not contain c. */
  lemma {:induction false} FindAbsent(s: string, c: char)
    requires c !in s
    ensures Find(s, c) == |s|
  {
  }
}
