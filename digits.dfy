/**
 * Decimal digit strings: the value a run of ASCII digits denotes, Python's
 * str() of a non-negative integer, and the zero-padded fields strftime writes.
 */
module Digits {

  predicate IsDigit(c: char) {
    '0' <= c <= '9'
  }

  predicate AllDigits(s: string) {
    forall i :: 0 <= i < |s| ==> IsDigit(s[i])
  }

  function DigitValue(c: char): (v: nat)
    requires IsDigit(c)
    ensures v < 10
  {
    c as int - '0' as int
  }

  function DigitChar(v: nat): (c: char)
    requires v < 10
    ensures IsDigit(c) && DigitValue(c) == v
  {
    ('0' as int + v) as char
  }

  /** The number a digit string denotes in base ten; the last digit is the least significant. */
  function Value(s: string): nat
    requires AllDigits(s)
  {
    if s == [] then 0 else Value(s[..|s| - 1]) * 10 + DigitValue(s[|s| - 1])
  }

  function Pow10(k: nat): (p: nat)
    ensures p >= 1
  {
    if k == 0 then 1 else 10 * Pow10(k - 1)
  }

  /** A string of k digits denotes a number below 10^k. */
  lemma {:induction false} ValueBelow(s: string)
    requires AllDigits(s)
    ensures Value(s) < Pow10(|s|)
  {
    if s != [] {
      ValueBelow(s[..|s| - 1]);
    }
  }

  /** Python's str(n) for n >= 0: the shortest decimal rendering, without leading zeros. */
  function NatToString(n: nat): (s: string)
    ensures |s| >= 1 && AllDigits(s)
    ensures Value(s) == n
    ensures s[0] == '0' ==> s == "0"
    decreases n
  {
    if n < 10 then [DigitChar(n)]
    else
      var prefix := NatToString(n / 10);
      var s := prefix + [DigitChar(n % 10)];
      assert s[..|s| - 1] == prefix;
      s
  }

  /** A two-character zero-padded field, as strftime writes "%d" and "%m". */
  function Pad2(n: nat): (s: string)
    requires n < 100
    ensures |s| == 2 && AllDigits(s) && Value(s) == n
  {
    var s := [DigitChar(n / 10), DigitChar(n % 10)];
    assert s[..1][..0] == [];
    assert Value(s[..1]) == n / 10;
    s
  }

  /** A four-character zero-padded field, as strftime writes "%Y". */
  function Pad4(n: nat): (s: string)
    requires n < 10000
    ensures |s| == 4 && AllDigits(s) && Value(s) == n
  {
    var hi := Pad2(n / 100);
    var lo := Pad2(n % 100);
    var s := hi + lo;
    assert s[..3] == hi + [lo[0]] && s[..3][..2] == hi;
    assert [lo[0]] == lo[..1];
    s
  }
}
