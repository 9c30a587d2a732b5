/** Decimal digit strings: `std::to_string` of an unsigned value, the value a
    digit string denotes, and the facts the zero-padded phone number rests on. */
module Decimal {

  predicate IsDigit(c: char) { '0' <= c <= '9' }

  predicate AllDigits(s: string) {
    forall i | 0 <= i < |s| :: IsDigit(s[i])
  }

  function DigitChar(d: nat): (c: char)
    requires d < 10
    ensures IsDigit(c) && c as int - '0' as int == d
  {
    ('0' as int + d) as char
  }

  function DigitValue(c: char): (d: nat)
    requires IsDigit(c)
    ensures d < 10
  {
    c as int - '0' as int
  }

  function Pow10(k: nat): (p: nat)
    ensures p >= 1
  {
    if k == 0 then 1 else 10 * Pow10(k - 1)
  }

  /** The shortest decimal representation of n, as `std::to_string` writes an
      unsigned value: at least one digit, and no leading zero unless n is 0. */
  function ToDecimal(n: nat): (s: string)
    ensures |s| >= 1 && AllDigits(s)
    ensures s[0] == '0' <==> n == 0
    decreases n
  {
    if n < 10 then [DigitChar(n)] else ToDecimal(n / 10) + [DigitChar(n % 10)]
  }

  /** The number a digit string denotes (most significant digit first). */
  function ValueOf(s: string): nat
    requires AllDigits(s)
  {
    if s == [] then 0 else ValueOf(s[..|s| - 1]) * 10 + DigitValue(s[|s| - 1])
  }

  /** Reading back what `ToDecimal` wrote gives the number. */
  lemma {:induction false} ValueOfToDecimal(n: nat)
    ensures ValueOf(ToDecimal(n)) == n
    decreases n
  {
    if n >= 10 {
      var s := ToDecimal(n);
      assert s[..|s| - 1] == ToDecimal(n / 10);
      ValueOfToDecimal(n / 10);
    }
  }

  /** A number below 10^k has at most k digits. */
  lemma {:induction false} ToDecimalLength(n: nat, k: nat)
    requires k >= 1 && n < Pow10(k)
    ensures |ToDecimal(n)| <= k
    decreases n
  {
    if n >= 10 {
      assert k >= 2;
      assert n / 10 < Pow10(k - 1);
      ToDecimalLength(n / 10, k - 1);
    }
  }

  /** m copies of '0'. */
  function Zeros(m: nat): (z: string)
    ensures |z| == m && AllDigits(z)
    ensures forall i | 0 <= i < m :: z[i] == '0'
  {
    if m == 0 then [] else Zeros(m - 1) + ['0']
  }

  /** A run of zeros denotes zero. */
  lemma {:induction false} ValueOfZeros(m: nat)
    ensures ValueOf(Zeros(m)) == 0
  {
    if m > 0 {
      assert Zeros(m)[..m - 1] == Zeros(m - 1);
      ValueOfZeros(m - 1);
    }
  }

  /** Leading zeros do not change the value of a digit string. */
  lemma {:induction false} LeadingZeros(m: nat, s: string)
    requires AllDigits(s)
    ensures AllDigits(Zeros(m) + s)
    ensures ValueOf(Zeros(m) + s) == ValueOf(s)
    decreases |s|
  {
    var z := Zeros(m) + s;
    if s == [] {
      assert z == Zeros(m);
      ValueOfZeros(m);
    } else {
      assert z[..|z| - 1] == Zeros(m) + s[..|s| - 1];
      assert z[|z| - 1] == s[|s| - 1];
      LeadingZeros(m, s[..|s| - 1]);
    }
  }
}
