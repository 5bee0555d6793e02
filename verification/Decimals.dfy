/** Numbers as the repository prints them into tokens and document ids. */
module Decimals {
  function Decimal(n: nat): string {
    if n < 10 then ["0123456789"[n]] else Decimal(n / 10) + ["0123456789"[n % 10]]
  }

  lemma {:induction false} DecimalIsInjective(a: nat, b: nat)
    requires Decimal(a) == Decimal(b)
    ensures a == b
    decreases a + b
  {
    DigitsDiffer(a % 10, b % 10);
    assert Decimal(a)[|Decimal(a)| - 1] == "0123456789"[a % 10];
    assert Decimal(b)[|Decimal(b)| - 1] == "0123456789"[b % 10];
    DecimalLength(a);
    DecimalLength(b);
    if a >= 10 && b >= 10 {
      assert Decimal(a)[..|Decimal(a)| - 1] == Decimal(a / 10);
      assert Decimal(b)[..|Decimal(b)| - 1] == Decimal(b / 10);
      DecimalIsInjective(a / 10, b / 10);
    }
  }

  lemma DigitsDiffer(a: nat, b: nat)
    requires a < 10 && b < 10
    ensures "0123456789"[a] == "0123456789"[b] ==> a == b
  {
  }

  lemma DecimalLength(n: nat)
    ensures |Decimal(n)| == 1 <==> n < 10
    ensures |Decimal(n)| >= 1
  {
  }
}
