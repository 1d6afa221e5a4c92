/**
  Decimal rendering of identifiers: the `str(n)` and `str(n).zfill(w)` used to
  build user, access and patient identifiers, and a parser that reads them back.
 */
module Format {

  predicate IsDigit(c: char) {
    '0' <= c <= '9'
  }

  predicate AllDigits(s: string) {
    forall i :: 0 <= i < |s| ==> IsDigit(s[i])
  }

  function DigitChar(d: nat): (c: char)
    requires d < 10
    ensures IsDigit(c) && DigitValue(c) == d
  {
    (('0' as int) + d) as char
  }

  function DigitValue(c: char): (d: nat)
    requires IsDigit(c)
    ensures d < 10
  {
    (c as int) - ('0' as int)
  }

  function Pow10(k: nat): (p: nat)
    ensures p >= 1
  {
    if k == 0 then 1 else 10 * Pow10(k - 1)
  }

  /** `str(n)` for a non-negative integer: its decimal digits, most significant first. */
  function Decimal(n: nat): (s: string)
    ensures |s| >= 1
  {
    if n < 10 then [DigitChar(n)] else Decimal(n / 10) + [DigitChar(n % 10)]
  }

  /** `str(n)` is a non-empty string of digits, a single one exactly below 10. */
  lemma {:induction false} DecimalDigits(n: nat)
    ensures 1 <= |Decimal(n)| && AllDigits(Decimal(n))
    ensures |Decimal(n)| == 1 <==> n < 10
  {
    if n >= 10 {
      DecimalDigits(n / 10);
    }
  }

  /** Reads a string of digits as a decimal number (leading zeros allowed). */
  function ParseDecimal(s: string): nat
    requires AllDigits(s)
  {
    if s == [] then 0 else ParseDecimal(s[..|s| - 1]) * 10 + DigitValue(s[|s| - 1])
  }

  function Zeros(k: nat): (z: string)
    ensures |z| == k
  {
    if k == 0 then [] else Zeros(k - 1) + ['0']
  }

  lemma {:induction false} ZerosAreZeros(k: nat)
    ensures forall i :: 0 <= i < k ==> Zeros(k)[i] == '0'
  {
    if k > 0 {
      ZerosAreZeros(k - 1);
    }
  }

  /**
    `s.zfill(width)` for a string of digits: pads with '0' on the left up to
    `width` characters and leaves longer strings alone. (Python's zfill also
    keeps a leading sign in front; decimal renderings of naturals have none.)
   */
  function ZFill(s: string, width: nat): (r: string)
    ensures |r| == if |s| < width then width else |s|
  {
    if |s| < width then Zeros(width - |s|) + s else s
  }

  /** The padded string ends with the original, is '0' before it, and is all digits when the original is. */
  lemma ZFillShape(s: string, width: nat)
    ensures var r := ZFill(s, width);
            && r[|r| - |s|..] == s
            && (forall i :: 0 <= i < |r| - |s| ==> r[i] == '0')
            && (AllDigits(s) ==> AllDigits(r))
  {
    var r := ZFill(s, width);
    if |s| < width {
      ZerosAreZeros(width - |s|);
      assert r == Zeros(width - |s|) + s;
    }
  }

  lemma {:induction false} ParseDecimalOfDecimal(n: nat)
    ensures AllDigits(Decimal(n)) && ParseDecimal(Decimal(n)) == n
  {
    DecimalDigits(n);
    if n >= 10 {
      var s := Decimal(n);
      assert s[..|s| - 1] == Decimal(n / 10);
      DecimalDigits(n / 10);
      ParseDecimalOfDecimal(n / 10);
    }
  }

  lemma {:induction false} ParseDecimalOfZeros(k: nat)
    ensures AllDigits(Zeros(k)) && ParseDecimal(Zeros(k)) == 0
  {
    ZerosAreZeros(k);
    var z := Zeros(k);
    assert AllDigits(z);
    if k > 0 {
      assert z[..k - 1] == Zeros(k - 1);
      ParseDecimalOfZeros(k - 1);
      assert ParseDecimal(z) == ParseDecimal(z[..k - 1]) * 10 + DigitValue(z[k - 1]);
    }
  }

  /** Leading zeros do not change the value read back. */
  lemma {:induction false} ParseDecimalSkipsZeros(k: nat, s: string)
    requires AllDigits(s)
    ensures AllDigits(Zeros(k) + s)
    ensures ParseDecimal(Zeros(k) + s) == ParseDecimal(s)
  {
    var t := Zeros(k) + s;
    if s == [] {
      assert t == Zeros(k);
      ParseDecimalOfZeros(k);
    } else {
      assert t[..|t| - 1] == Zeros(k) + s[..|s| - 1];
      ParseDecimalSkipsZeros(k, s[..|s| - 1]);
    }
  }

  /** Zero-padding is undone by parsing: `int(str(n).zfill(w)) == n`. */
  lemma ZFillRoundTrip(n: nat, width: nat)
    ensures AllDigits(ZFill(Decimal(n), width)) && ParseDecimal(ZFill(Decimal(n), width)) == n
  {
    var s := Decimal(n);
    ParseDecimalOfDecimal(n);
    ZFillShape(s, width);
    if |s| < width {
      ParseDecimalSkipsZeros(width - |s|, s);
    }
  }

  /** A number below 10^k takes at most k digits. */
  lemma {:induction false} DecimalLengthBound(n: nat, k: nat)
    requires 1 <= k && n < Pow10(k)
    ensures |Decimal(n)| <= k
  {
    DecimalDigits(n);
    if n >= 10 {
      assert k >= 2;
      assert n / 10 < Pow10(k - 1);
      DecimalLengthBound(n / 10, k - 1);
    }
  }
}
