/**
 The text `TimeModule.updateTime` writes into the clock element: the hours,
 minutes and seconds of the current time, each rendered with `String(n)` and
 left-padded to two characters with '0' by `padStart(2, '0')`, joined by ':'.
 The clock itself is a parameter: the formatting is a function of (h, m, s).
 */
module Clock {

  predicate IsDigit(c: char)
  {
    '0' <= c <= '9'
  }

  predicate AllDigits(s: string)
  {
    forall i :: 0 <= i < |s| ==> IsDigit(s[i])
  }

  function DigitValue(c: char): nat
    requires IsDigit(c)
  {
    c as int - '0' as int
  }

  function DigitChar(d: nat): (c: char)
    requires d < 10
    ensures IsDigit(c) && DigitValue(c) == d
  {
    ('0' as int + d) as char
  }

  /** The number a string of decimal digits denotes (leading zeros allowed). */
  function DecimalValue(s: string): nat
    requires AllDigits(s)
  {
    if s == [] then 0 else DecimalValue(s[..|s| - 1]) * 10 + DigitValue(s[|s| - 1])
  }

  /**
   `String(n)` for a non-negative integer: its shortest decimal spelling, which
   denotes `n`, has no leading zero and is one digit exactly for `n < 10`.
   */
  function NatToString(n: nat): (r: string)
    ensures |r| >= 1 && AllDigits(r) && DecimalValue(r) == n
    ensures |r| == 1 <==> n < 10
    ensures |r| > 1 ==> r[0] != '0'
    ensures n < 100 ==> |r| <= 2
  {
    if n < 10 then
      [DigitChar(n)]
    else
      var prefix := NatToString(n / 10);
      var r := prefix + [DigitChar(n % 10)];
      assert r[..|r| - 1] == prefix;
      r
  }

  /**
   `s.padStart(width, [pad])`: `s` itself when it is already `width` long or
   longer, otherwise `s` preceded by enough copies of `pad` to reach `width`.
   */
  function PadStart(s: string, width: nat, pad: char): (r: string)
    ensures |r| == if |s| < width then width else |s|
    ensures r[|r| - |s|..] == s
    ensures forall i :: 0 <= i < |r| - |s| ==> r[i] == pad
  {
    if |s| < width then seq(width - |s|, _ => pad) + s else s
  }

  /** One clock field: `String(n).padStart(2, '0')`. */
  function TwoDigits(n: nat): string
  {
    PadStart(NatToString(n), 2, '0')
  }

  /** Any field below 100 renders as exactly two digits that denote it. */
  lemma TwoDigitsDenotes(n: nat)
    requires n < 100
    ensures |TwoDigits(n)| == 2 && AllDigits(TwoDigits(n))
    ensures DecimalValue(TwoDigits(n)) == n
  {
    var digits := NatToString(n);
    var r := TwoDigits(n);
    if n < 10 {
      assert r == ['0'] + digits;
      assert r[..1] == ['0'];
      assert DecimalValue(['0']) == DecimalValue([]) * 10 + 0 == 0;
      assert DecimalValue(digits) == DecimalValue(digits[..0]) * 10 + DigitValue(digits[0]);
    } else {
      assert r == digits;
    }
  }

  /** Three two-character fields joined by ':' can be sliced back apart. */
  lemma JoinedFields(a: string, b: string, c: string)
    requires |a| == 2 && |b| == 2 && |c| == 2
    ensures var r := a + ":" + b + ":" + c;
      |r| == 8 && r[2] == ':' && r[5] == ':' && r[0..2] == a && r[3..5] == b && r[6..8] == c
  {
  }

  /** The text written into the clock element for the time h:m:s. */
  function FormatTime(h: nat, m: nat, s: nat): (r: string)
    requires h < 24 && m < 60 && s < 60
    ensures |r| == 8 && r[2] == ':' && r[5] == ':'
    ensures AllDigits(r[0..2]) && AllDigits(r[3..5]) && AllDigits(r[6..8])
    ensures DecimalValue(r[0..2]) == h && DecimalValue(r[3..5]) == m && DecimalValue(r[6..8]) == s
  {
    var hh, mm, ss := TwoDigits(h), TwoDigits(m), TwoDigits(s);
    TwoDigitsDenotes(h);
    TwoDigitsDenotes(m);
    TwoDigitsDenotes(s);
    JoinedFields(hh, mm, ss);
    hh + ":" + mm + ":" + ss
  }

  /** Two different times never render to the same clock text. */
  lemma FormatTimeInjective(h1: nat, m1: nat, s1: nat, h2: nat, m2: nat, s2: nat)
    requires h1 < 24 && m1 < 60 && s1 < 60
    requires h2 < 24 && m2 < 60 && s2 < 60
    requires FormatTime(h1, m1, s1) == FormatTime(h2, m2, s2)
    ensures h1 == h2 && m1 == m2 && s1 == s2
  {
  }
}
