/** Decimal numerals as `str(n)` writes them: distinct, and no longer for a smaller number. */
module Numerals {

  function Digit(d: nat): char
    requires d < 10
  {
    "0123456789"[d]
  }

  function Decimal(n: nat): (s: string)
    ensures s != ""
    ensures forall i | 0 <= i < |s| :: '0' <= s[i] <= '9'
  {
    if n < 10 then [Digit(n)] else Decimal(n / 10) + [Digit(n % 10)]
  }

  lemma {:induction false} Injective(m: nat, n: nat)
    requires Decimal(m) == Decimal(n)
    ensures m == n
  {
    var s, t := Decimal(m), Decimal(n);
    assert s[|s| - 1] == Digit(m % 10) && t[|t| - 1] == Digit(n % 10);
    if m < 10 {
      assert |s| == 1;
    } else {
      assert Decimal(m / 10) == s[..|s| - 1] && |s| > 1;
      assert n >= 10;
      assert Decimal(n / 10) == t[..|t| - 1];
      Injective(m / 10, n / 10);
    }
  }

  /** What lets a notice be reserved at its longest before the count is known. */
  lemma {:induction false} WidthMonotone(m: nat, n: nat)
    requires m <= n
    ensures |Decimal(m)| <= |Decimal(n)|
  {
    if m >= 10 {
      WidthMonotone(m / 10, n / 10);
    }
  }
}
