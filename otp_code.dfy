/**
 * The one-time codes: `Math.floor(100000 + Math.random() * 900000).toString()`.
 * The random draw is a parameter `code` in [100000, 999999]; what is modelled
 * is `toString`, the decimal rendering of a non-negative integer.
 */
module OtpCode {
  import opened PasswordPolicy

  function DigitChar(d: nat): (c: char)
    requires d < 10
    ensures IsDigit(c)
  {
    ('0' as int + d) as char
  }

  function DigitValue(c: char): nat
    requires IsDigit(c)
  {
    c as int - '0' as int
  }

  /** `n.toString()`: the decimal digits of `n`, most significant first, without leading zeros. */
  function DecimalString(n: nat): (s: string)
    ensures |s| >= 1
    ensures forall i :: 0 <= i < |s| ==> IsDigit(s[i])
  {
    if n < 10 then [DigitChar(n)] else DecimalString(n / 10) + [DigitChar(n % 10)]
  }

  /** The value of a string of decimal digits (the inverse of `DecimalString`). */
  function ParseDecimal(s: string): nat
    requires forall i :: 0 <= i < |s| ==> IsDigit(s[i])
  {
    if |s| == 0 then 0 else ParseDecimal(s[..|s| - 1]) * 10 + DigitValue(s[|s| - 1])
  }

  function Pow10(k: nat): nat
  {
    if k == 0 then 1 else 10 * Pow10(k - 1)
  }

  lemma {:induction false} ParseDecimalString(n: nat)
    ensures ParseDecimal(DecimalString(n)) == n
  {
    var s := DecimalString(n);
    if n >= 10 {
      ParseDecimalString(n / 10);
      assert s[..|s| - 1] == DecimalString(n / 10);
    }
  }

  /** A number with k digits renders as k characters, the first of them not '0' unless n is 0. */
  lemma {:induction false} DecimalLength(n: nat, k: nat)
    requires k >= 1 && Pow10(k - 1) <= n < Pow10(k)
    ensures |DecimalString(n)| == k
    ensures n > 0 ==> DecimalString(n)[0] != '0'
  {
    if n >= 10 {
      assert k >= 2;
      assert Pow10(k - 1) == 10 * Pow10(k - 2);
      DecimalLength(n / 10, k - 1);
    }
  }

  /** `generateOTP()` for the draw `code`: six decimal digits, no leading zero, reading back as `code`. */
  function GenerateOtp(code: nat): (otp: string)
    requires 100000 <= code <= 999999
    ensures |otp| == 6
    ensures forall i :: 0 <= i < |otp| ==> IsDigit(otp[i])
    ensures otp[0] != '0'
    ensures ParseDecimal(otp) == code
  {
    assert Pow10(5) == 100000 by {
      assert Pow10(2) == 100;
      assert Pow10(4) == 10000;
    }
    DecimalLength(code, 6);
    ParseDecimalString(code);
    DecimalString(code)
  }

  /** Different draws give different codes. */
  lemma GenerateOtpInjective(a: nat, b: nat)
    requires 100000 <= a <= 999999 && 100000 <= b <= 999999
    requires a != b
    ensures GenerateOtp(a) != GenerateOtp(b)
  {
  }
}
