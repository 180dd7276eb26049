/** Natural numbers written in decimal, and read back. */
module Decimals {
  predicate IsDigit(c: char) {
    '0' <= c <= '9'
  }

  predicate AllDigits(s: string) {
    forall i :: 0 <= i < |s| ==> IsDigit(s[i])
  }

  function Numeral(s: string): nat
    requires AllDigits(s)
  {
    if s == "" then 0 else 10 * Numeral(s[..|s| - 1]) + (s[|s| - 1] - '0') as nat
  }

  function Digit(d: nat): (c: char)
    requires d < 10
    ensures IsDigit(c) && (c - '0') as nat == d
  {
    "0123456789"[d]
  }

  function Decimal(n: nat): (s: string)
    ensures s != "" && AllDigits(s)
  {
    if n < 10 then [Digit(n)] else Decimal(n / 10) + [Digit(n % 10)]
  }

  lemma {:induction false} DecimalValue(n: nat)
    ensures Numeral(Decimal(n)) == n
  {
    hide Digit;
    if n < 10 {
      assert Decimal(n)[..0] == "";
    } else {
      DecimalValue(n / 10);
      assert Decimal(n)[..|Decimal(n)| - 1] == Decimal(n / 10);
    }
  }

  /** Zeros in front change nothing. */
  lemma {:induction false} LeadingZeros(zeros: string, s: string)
    requires (forall i :: 0 <= i < |zeros| ==> zeros[i] == '0') && AllDigits(s)
    ensures AllDigits(zeros + s) && Numeral(zeros + s) == Numeral(s)
    decreases |zeros| + |s|
  {
    if s == "" {
      assert zeros + s == zeros;
      if zeros != "" {
        LeadingZeros(zeros[..|zeros| - 1], "");
        assert zeros[..|zeros| - 1] + "" == zeros[..|zeros| - 1];
      }
    } else {
      var s0 := s[..|s| - 1];
      LeadingZeros(zeros, s0);
      assert (zeros + s)[..|zeros + s| - 1] == zeros + s0;
    }
  }

  /** Different numbers are written differently. */
  lemma DecimalInjective(m: nat, n: nat)
    requires Decimal(m) == Decimal(n)
    ensures m == n
  {
    DecimalValue(m);
    DecimalValue(n);
  }

  lemma Spelled()
    ensures Decimal(0) == "0" && Decimal(7) == "7" && Decimal(10) == "10" && Decimal(2026) == "2026"
    ensures Numeral("0930") == 930
  {
    assert Decimal(1) == "1" && Decimal(2) == "2" && Decimal(20) == "20" && Decimal(202) == "202";
    var s := "0930";
    assert s[..3] == "093" && s[..2] == "09" && s[..1] == "0" && s[..0] == "";
    assert "093"[..2] == "09" && "09"[..1] == "0" && "0"[..0] == "";
    assert Numeral("0") == 0 && Numeral("09") == 9 && Numeral("093") == 93;
  }
}
