/**
 * The decimal text of Python integers: `str(n)` for an `int`, `str.zfill`, and the
 * reading of such text back into a number (`int(s)`), which undoes both; and `''.join`.
 */
module PyText {

  predicate IsDigit(c: char) {
    '0' <= c <= '9'
  }

  predicate AllDigits(s: string) {
    forall i :: 0 <= i < |s| ==> IsDigit(s[i])
  }

  function DigitValue(c: char): nat
    requires IsDigit(c)
  {
    (c as int) - ('0' as int)
  }

  function DigitChar(d: nat): (c: char)
    requires d < 10
    ensures IsDigit(c) && DigitValue(c) == d
  {
    (('0' as int) + d) as char
  }

  /** The decimal digits of `n`, most significant first, without leading zeros. */
  function Digits(n: nat): string
    decreases n
  {
    if n < 10 then [DigitChar(n)] else Digits(n / 10) + [DigitChar(n % 10)]
  }

  /** `str(n)`: a `-` sign for negative numbers, then the digits of the magnitude. */
  function Str(n: int): string {
    if n < 0 then "-" + Digits(-n) else Digits(n)
  }

  /** `'0' * k`. */
  function Zeros(k: nat): string {
    if k == 0 then "" else Zeros(k - 1) + "0"
  }

  /**
   * `s.zfill(width)`: while the text is shorter than `width`, put one more `0` after a
   * leading sign, or in front when there is none.
   */
  function ZFill(s: string, width: nat): string
    decreases width - |s|
  {
    if |s| >= width then s
    else if |s| > 0 && (s[0] == '+' || s[0] == '-') then ZFill([s[0]] + "0" + s[1..], width)
    else ZFill("0" + s, width)
  }

  /** The number a string of digits denotes. */
  function DigitsValue(s: string): nat
    requires AllDigits(s)
    decreases |s|
  {
    if s == [] then 0 else DigitsValue(s[..|s| - 1]) * 10 + DigitValue(s[|s| - 1])
  }

  /** Text `int()` reads as a decimal integer: digits, optionally after a `-`. */
  predicate IsDecimal(s: string) {
    if |s| > 0 && s[0] == '-' then |s| > 1 && AllDigits(s[1..]) else |s| > 0 && AllDigits(s)
  }

  /** `int(s)` for decimal text. */
  function ParseInt(s: string): int
    requires IsDecimal(s)
  {
    if s[0] == '-' then -(DigitsValue(s[1..]) as int) else DigitsValue(s)
  }

  function Pow10(k: nat): nat {
    if k == 0 then 1 else 10 * Pow10(k - 1)
  }

  /** `str(n)` of a natural number is one or more digits, without a leading zero past one digit. */
  lemma {:induction false} DigitsShape(n: nat)
    ensures 1 <= |Digits(n)| && AllDigits(Digits(n))
    ensures n >= 10 ==> Digits(n)[0] != '0'
    decreases n
  {
    if n >= 10 {
      DigitsShape(n / 10);
      assert Digits(n)[0] == Digits(n / 10)[0];
    }
  }

  /** `str(n)` is never empty and starts with `-` exactly for negative numbers. */
  lemma StrShape(n: int)
    ensures 1 <= |Str(n)| && (Str(n)[0] == '-' <==> n < 0)
    ensures n < 0 ==> Str(n)[1..] == Digits(-n)
    ensures n >= 0 ==> Str(n) == Digits(n)
  {
    DigitsShape(if n < 0 then -n else n);
  }

  lemma {:induction false} ZerosShape(k: nat)
    ensures |Zeros(k)| == k && forall i :: 0 <= i < k ==> Zeros(k)[i] == '0'
  {
    if k > 0 {
      ZerosShape(k - 1);
    }
  }

  /** All the padding lands in one run of zeros, after the sign if there is one. */
  lemma {:induction false} ZFillPads(s: string, width: nat)
    ensures ZFill(s, width)
         == if |s| >= width then s
            else if |s| > 0 && (s[0] == '+' || s[0] == '-') then [s[0]] + Zeros(width - |s|) + s[1..]
            else Zeros(width - |s|) + s
    decreases width - |s|
  {
    if |s| < width {
      var k := width - |s|;
      if |s| > 0 && (s[0] == '+' || s[0] == '-') {
        var t := [s[0]] + "0" + s[1..];
        ZFillPads(t, width);
        assert t[0] == s[0] && t[1..] == "0" + s[1..];
        assert [s[0]] + Zeros(k - 1) + ("0" + s[1..]) == [s[0]] + (Zeros(k - 1) + "0") + s[1..];
      } else {
        var t := "0" + s;
        ZFillPads(t, width);
        assert Zeros(k - 1) + t == (Zeros(k - 1) + "0") + s;
      }
    }
  }

  /** `zfill` pads up to `width` and leaves longer text alone. */
  lemma ZFillLength(s: string, width: nat)
    ensures |ZFill(s, width)| == if |s| >= width then |s| else width
    ensures |s| >= width ==> ZFill(s, width) == s
  {
    ZFillPads(s, width);
    if |s| < width {
      ZerosShape(width - |s|);
    }
  }

  /** Reading the digits of `n` gives `n` back. */
  lemma {:induction false} DigitsRoundTrip(n: nat)
    ensures AllDigits(Digits(n)) && DigitsValue(Digits(n)) == n
    decreases n
  {
    DigitsShape(n);
    if n >= 10 {
      var s := Digits(n);
      assert s[..|s| - 1] == Digits(n / 10);
      DigitsRoundTrip(n / 10);
    }
  }

  /** A string of zeros reads as 0. */
  lemma {:induction false} ZerosValue(k: nat)
    ensures AllDigits(Zeros(k)) && DigitsValue(Zeros(k)) == 0
  {
    ZerosShape(k);
    if k > 0 {
      assert Zeros(k)[..k - 1] == Zeros(k - 1);
      ZerosValue(k - 1);
    }
  }

  /** Leading zeros do not change the value of a digit string. */
  lemma {:induction false} LeadingZeros(k: nat, s: string)
    requires AllDigits(s)
    ensures AllDigits(Zeros(k) + s) && DigitsValue(Zeros(k) + s) == DigitsValue(s)
    decreases |s|
  {
    var z := Zeros(k) + s;
    if s == [] {
      assert z == Zeros(k);
      ZerosValue(k);
    } else {
      assert z[..|z| - 1] == Zeros(k) + s[..|s| - 1];
      LeadingZeros(k, s[..|s| - 1]);
    }
  }

  /** `int(str(n).zfill(width)) == n`: zero padding loses nothing, whatever the sign. */
  lemma ZFillRoundTrip(n: int, width: nat)
    ensures IsDecimal(ZFill(Str(n), width)) && ParseInt(ZFill(Str(n), width)) == n
  {
    var s := Str(n);
    var z := ZFill(s, width);
    StrShape(n);
    ZFillPads(s, width);
    ZFillLength(s, width);
    if n < 0 {
      var d := Digits(-n);
      assert s[1..] == d;
      DigitsRoundTrip(-n);
      if |s| < width {
        var k := width - |s|;
        assert z[1..] == Zeros(k) + d;
        LeadingZeros(k, d);
      }
    } else {
      DigitsRoundTrip(n);
      if |s| < width {
        LeadingZeros(width - |s|, s);
      }
    }
  }

  /** A number below `10^k` has at most `k` digits. */
  lemma {:induction false} DigitsLength(n: nat, k: nat)
    requires 1 <= k && n < Pow10(k)
    ensures |Digits(n)| <= k
    decreases k
  {
    if n >= 10 {
      assert k != 1;
      DigitsLength(n / 10, k - 1);
    }
  }

  /** Non-negative numbers below 10000 pad to exactly four digits. */
  lemma FourDigits(n: int)
    requires 0 <= n < 10000
    ensures |ZFill(Str(n), 4)| == 4 && AllDigits(ZFill(Str(n), 4))
  {
    assert Pow10(4) == 10000;
    DigitsLength(n, 4);
    var s := Str(n);
    StrShape(n);
    DigitsShape(n);
    ZFillPads(s, 4);
    ZFillLength(s, 4);
    if |s| < 4 {
      LeadingZeros(4 - |s|, s);
    }
  }

  /** `''.join(parts)`, which is also what an f-string does with its pieces. */
  function Concat(parts: seq<string>): string
    decreases |parts|
  {
    if parts == [] then "" else parts[0] + Concat(parts[1..])
  }
}
