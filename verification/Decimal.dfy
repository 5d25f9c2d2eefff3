/** Decimal numerals: what a run of digits is worth, and how numbers are written. */
module Decimal {
  import opened Common

  predicate IsDigit(c: char) {
    '0' <= c <= '9'
  }

  predicate AllDigits(s: string) {
    forall i :: 0 <= i < |s| ==> IsDigit(s[i])
  }

  function DigitValue(c: char): (v: nat)
    requires IsDigit(c)
    ensures v <= 9
  {
    c as int - '0' as int
  }

  /** The number a run of decimal digits spells; leading zeros are allowed. */
  function DecimalValue(s: string): nat
    requires AllDigits(s)
  {
    if s == "" then 0 else 10 * DecimalValue(s[..|s| - 1]) + DigitValue(s[|s| - 1])
  }

  function DigitChar(d: nat): (c: char)
    requires d <= 9
    ensures IsDigit(c) && DigitValue(c) == d
  {
    '0' + d as char
  }

  /** Plain decimal without leading zeros. */
  function ShowNat(n: nat): (s: string)
    ensures s != "" && AllDigits(s)
    ensures DecimalValue(s) == n
  {
    if n < 10 then
      assert [DigitChar(n)][..0] == "";
      [DigitChar(n)]
    else
      var t := ShowNat(n / 10);
      var s := t + [DigitChar(n % 10)];
      assert s[..|s| - 1] == t;
      s
  }

  function Zeros(k: nat): (s: string)
    ensures |s| == k && AllDigits(s)
  {
    seq(k, i => '0')
  }

  /** Decimal, zero-padded to at least `width` digits. */
  function Padded(n: nat, width: nat): (s: string)
    ensures AllDigits(s)
  {
    var t := ShowNat(n);
    if |t| >= width then t else Zeros(width - |t|) + t
  }

  /** Leading zeros change the spelling but not the number. */
  lemma {:induction false} LeadingZeros(k: nat, s: string)
    requires AllDigits(s)
    ensures AllDigits(Zeros(k) + s) && DecimalValue(Zeros(k) + s) == DecimalValue(s)
    decreases k + |s|
  {
    if s != "" {
      LeadingZeros(k, s[..|s| - 1]);
      assert (Zeros(k) + s)[..k + |s| - 1] == Zeros(k) + s[..|s| - 1];
    } else if k > 0 {
      LeadingZeros(k - 1, "");
      assert Zeros(k) + "" == Zeros(k) && Zeros(k - 1) + "" == Zeros(k - 1);
      assert Zeros(k)[..k - 1] == Zeros(k - 1);
    }
  }

  /** A padded numeral still tells its number. */
  lemma PaddedValue(n: nat, width: nat)
    ensures DecimalValue(Padded(n, width)) == n
  {
    if |ShowNat(n)| < width {
      LeadingZeros(width - |ShowNat(n)|, ShowNat(n));
    }
  }

  /** Without leading zeros. */
  predicate Plain(s: string) {
    s == "0" || (s != "" && s[0] != '0')
  }

  /** A numeral without leading zeros is the one its number is written as. */
  lemma {:induction false} PlainIsShown(s: string)
    requires AllDigits(s) && Plain(s)
    ensures s == ShowNat(DecimalValue(s))
    ensures s != "0" ==> DecimalValue(s) > 0
    decreases |s|
  {
    var t := s[..|s| - 1];
    assert s == t + [s[|s| - 1]];
    if t == "" {
      assert DecimalValue(s) == DigitValue(s[0]);
    } else {
      PlainIsShown(t);
      assert DecimalValue(s) / 10 == DecimalValue(t);
    }
  }

  /** `str::parse::<u64>` on a non-empty run of ASCII digits. */
  function ParseU64(s: string): Option<U64>
    requires AllDigits(s)
  {
    if DecimalValue(s) <= U64_MAX then Some(DecimalValue(s)) else None
  }
}
