/** Decimal rendering of naturals, and reading it back. */
module Decimal {
  predicate IsDigit(c: char) {
    '0' <= c <= '9'
  }

  function Digit(d: nat): (c: char)
    requires d < 10
    ensures IsDigit(c)
  {
    ['0', '1', '2', '3', '4', '5', '6', '7', '8', '9'][d]
  }

  function DigitValue(c: char): (d: nat)
    requires IsDigit(c)
    ensures d < 10
  {
    (c as int) - ('0' as int)
  }

  ghost predicate AllDigits(s: string) {
    forall c <- s :: IsDigit(c)
  }

  function Of(n: nat): (s: string)
    ensures |s| > 0 && AllDigits(s)
  {
    if n < 10 then [Digit(n)] else Of(n / 10) + [Digit(n % 10)]
  }

  function Value(s: string): nat
    requires AllDigits(s)
  {
    if s == [] then 0 else Value(s[..|s| - 1]) * 10 + DigitValue(s[|s| - 1])
  }

  lemma DigitRoundTrip(d: nat)
    requires d < 10
    ensures DigitValue(Digit(d)) == d
  {
  }

  lemma {:induction false} ValueOf(n: nat)
    ensures Value(Of(n)) == n
  {
    if n < 10 {
      DigitRoundTrip(n);
      assert [Digit(n)][..0] == [];
    } else {
      ValueOf(n / 10);
      DigitRoundTrip(n % 10);
      assert (Of(n / 10) + [Digit(n % 10)])[..|Of(n)| - 1] == Of(n / 10);
    }
  }

  function Zeros(k: nat): (s: string)
    ensures |s| == k && AllDigits(s)
  {
    if k == 0 then "" else Zeros(k - 1) + "0"
  }

  /** `{:0width}`: zero padded on the left, never cut. */
  function Padded(n: nat, width: nat): (s: string)
    ensures AllDigits(s)
  {
    var s := Of(n);
    if |s| >= width then s else Zeros(width - |s|) + s
  }

  lemma {:induction false} ValueZeros(k: nat, s: string)
    requires AllDigits(s)
    ensures Value(Zeros(k) + s) == Value(s)
    decreases |s|, k
  {
    var z := Zeros(k);
    if s == [] {
      assert z + s == z;
      if k > 0 {
        assert z[..k - 1] == Zeros(k - 1);
        ValueZeros(k - 1, []);
        assert Zeros(k - 1) + [] == Zeros(k - 1);
      }
    } else {
      ValueZeros(k, s[..|s| - 1]);
      assert (z + s)[..|z + s| - 1] == z + s[..|s| - 1];
    }
  }

  function Pow10(k: nat): (p: nat)
    ensures p > 0
  {
    if k == 0 then 1 else 10 * Pow10(k - 1)
  }

  lemma {:induction false} Length(n: nat, k: nat)
    requires k > 0
    ensures |Of(n)| <= k <==> n < Pow10(k)
    decreases k
  {
    if k == 1 {
      assert Pow10(1) == 10 * Pow10(0);
    } else if n >= 10 {
      Length(n / 10, k - 1);
    } else {
      assert Pow10(k - 1) >= 1;
    }
  }

  /** Padding keeps the value, and the width is met exactly when the value fits in it. */
  lemma PaddedMeaning(n: nat, width: nat)
    requires width > 0
    ensures Value(Padded(n, width)) == n
    ensures |Padded(n, width)| >= width
    ensures |Padded(n, width)| == width <==> n < Pow10(width)
  {
    ValueOf(n);
    Length(n, width);
    if |Of(n)| < width {
      ValueZeros(width - |Of(n)|, Of(n));
    }
  }
}
