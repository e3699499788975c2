/** Decimal renderings used by the ticket and report formats: `toString()` of
    a non-negative integer, `padStart`, `toFixed(2)` of a whole-cent amount,
    and the parsers that invert them. */
module Decimal {
  import opened Results

  predicate IsDigit(c: char) {
    '0' <= c <= '9'
  }

  predicate AllDigits(s: string) {
    forall i :: 0 <= i < |s| ==> IsDigit(s[i])
  }

  function DigitChar(d: nat): (c: char)
    requires d < 10
    ensures IsDigit(c) && c as int - '0' as int == d
  {
    ('0' as int + d) as char
  }

  function DigitValue(c: char): (d: nat)
    requires IsDigit(c)
    ensures d < 10 && DigitChar(d) == c
  {
    c as int - '0' as int
  }

  /** `n.toString()` for a non-negative integer. */
  function NatToString(n: nat): (s: string)
    ensures |s| >= 1 && AllDigits(s)
    ensures n < 10 <==> |s| == 1
  {
    if n < 10 then [DigitChar(n)] else NatToString(n / 10) + [DigitChar(n % 10)]
  }

  /** The value of a string of decimal digits (the empty string is 0). */
  function DigitsValue(s: string): nat
    requires AllDigits(s)
  {
    if s == [] then 0 else DigitsValue(s[..|s| - 1]) * 10 + DigitValue(s[|s| - 1])
  }

  /** Reading back a rendered number gives the number. */
  lemma {:induction false} NatToStringRoundTrip(n: nat)
    ensures DigitsValue(NatToString(n)) == n
  {
    var s := NatToString(n);
    if n >= 10 {
      NatToStringRoundTrip(n / 10);
      assert s[..|s| - 1] == NatToString(n / 10);
    }
  }

  /** Different numbers render differently. */
  lemma NatToStringInjective(m: nat, n: nat)
    requires NatToString(m) == NatToString(n)
    ensures m == n
  {
    NatToStringRoundTrip(m);
    NatToStringRoundTrip(n);
  }

  function Repeat(c: char, k: nat): (s: string)
    ensures |s| == k && forall i :: 0 <= i < k ==> s[i] == c
  {
    if k == 0 then [] else [c] + Repeat(c, k - 1)
  }

  /** `s.padStart(width, c)`: unchanged when already `width` long or longer. */
  function PadStart(s: string, width: nat, c: char): (r: string)
    ensures |s| >= width ==> r == s
    ensures |s| < width ==> |r| == width && r[width - |s|..] == s
    ensures forall i :: 0 <= i < |r| - |s| ==> r[i] == c
  {
    if |s| >= width then s else Repeat(c, width - |s|) + s
  }

  /** Leading zeros do not change the value of a digit string. */
  lemma {:induction false} LeadingZeros(k: nat, s: string)
    requires AllDigits(s)
    ensures AllDigits(Repeat('0', k) + s)
    ensures DigitsValue(Repeat('0', k) + s) == DigitsValue(s)
  {
    var z := Repeat('0', k);
    if s == [] {
      assert z + s == z;
      ZerosValue(k);
    } else {
      var t := s[..|s| - 1];
      LeadingZeros(k, t);
      assert (z + s)[..|z + s| - 1] == z + t;
    }
  }

  lemma {:induction false} ZerosValue(k: nat)
    ensures AllDigits(Repeat('0', k)) && DigitsValue(Repeat('0', k)) == 0
  {
    if k > 0 {
      ZerosValue(k - 1);
      var z := Repeat('0', k);
      assert z[..k - 1] == Repeat('0', k - 1);
    }
  }

  /** A zero-padded rendering still reads back as the number. */
  lemma PaddedRoundTrip(n: nat, width: nat)
    ensures AllDigits(PadStart(NatToString(n), width, '0'))
    ensures DigitsValue(PadStart(NatToString(n), width, '0')) == n
  {
    var s := NatToString(n);
    NatToStringRoundTrip(n);
    if |s| < width {
      assert PadStart(s, width, '0') == Repeat('0', width - |s|) + s;
      LeadingZeros(width - |s|, s);
    } else {
      assert PadStart(s, width, '0') == s;
    }
  }

  function Abs(c: int): nat {
    if c < 0 then -c else c
  }

  /** `toFixed(2)` of the amount `c` cents: optional '-', the whole units,
      '.', and exactly two digits. */
  function FormatCents(c: int): (s: string)
    ensures |s| >= 4 && s[|s| - 3] == '.'
    ensures (c < 0) == (s[0] == '-')
  {
    (if c < 0 then "-" else "") + UnsignedCentsText(Abs(c))
  }

  /** The whole units, '.', and the two digits of `a` cents. */
  function UnsignedCentsText(a: nat): (u: string)
    ensures |u| >= 4 && u[|u| - 3] == '.' && IsDigit(u[0])
  {
    NatToString(a / 100) + "." + [DigitChar(a % 100 / 10), DigitChar(a % 10)]
  }

  /** Reads an unsigned `units.dd` string back as a cent count. */
  function ParseUnsignedCents(t: string): Option<nat> {
    if |t| >= 4 && t[|t| - 3] == '.' && AllDigits(t[..|t| - 3]) && AllDigits(t[|t| - 2..]) then
      Some(DigitsValue(t[..|t| - 3]) * 100 + DigitsValue(t[|t| - 2..]))
    else
      None
  }

  /** Reads a `toFixed(2)` string back as a cent count. */
  function ParseCents(s: string): Option<int> {
    if |s| > 0 && s[0] == '-' then
      match ParseUnsignedCents(s[1..])
      case Some(v) => var n: int := v; Some(-n)
      case None => None
    else
      match ParseUnsignedCents(s)
      case Some(v) => Some(v)
      case None => None
  }

  lemma TwoDigitsValue(hi: nat, lo: nat)
    requires hi < 10 && lo < 10
    ensures DigitsValue([DigitChar(hi), DigitChar(lo)]) == hi * 10 + lo
  {
    var two := [DigitChar(hi), DigitChar(lo)];
    var one := [DigitChar(hi)];
    assert two[..1] == one;
    assert one[..0] == [];
    assert DigitsValue(one) == hi;
    assert DigitValue(DigitChar(lo)) == lo;
  }

  /** The unsigned text of an amount reads back as that amount. */
  lemma UnsignedCentsRoundTrip(a: nat)
    ensures ParseUnsignedCents(UnsignedCentsText(a)) == Some(a)
  {
    var u := UnsignedCentsText(a);
    assert u[..|u| - 3] == NatToString(a / 100);
    assert u[|u| - 2..] == [DigitChar(a % 100 / 10), DigitChar(a % 10)];
    NatToStringRoundTrip(a / 100);
    TwoDigitsValue(a % 100 / 10, a % 10);
    CentsDigits(a);
  }

  /** The units, tens digit and ones digit of a cent count make it up. */
  lemma CentsDigits(a: nat)
    ensures a / 100 * 100 + (a % 100 / 10 * 10 + a % 10) == a
  {
    var q, r := a / 100, a % 100;
    assert a == 100 * q + r;
    assert r == 10 * (r / 10) + r % 10;
    LastDigitOfRest(a);
  }

  /** The last digit of a number is the last digit of its last two. */
  lemma LastDigitOfRest(n: nat)
    ensures n % 10 == n % 100 % 10 && n / 10 % 10 == n % 100 / 10
  {
    var q, r := n / 100, n % 100;
    assert n == 10 * (10 * q + r / 10) + r % 10;
    assert 0 <= r % 10 < 10;
  }

  /** Parsing a formatted amount gives the amount back. */
  lemma FormatCentsRoundTrip(c: int)
    ensures ParseCents(FormatCents(c)) == Some(c)
  {
    var u := UnsignedCentsText(Abs(c));
    UnsignedCentsRoundTrip(Abs(c));
    if c < 0 {
      assert FormatCents(c) == "-" + u;
      assert ("-" + u)[1..] == u;
    } else {
      assert FormatCents(c) == u;
    }
  }
}
