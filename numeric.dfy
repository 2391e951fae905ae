/**
 * The decimal helpers the pricing code imports: the zero and one constants,
 * safe division and powers of ten. Decimals are exact reals here.
 */
module Numeric {

  const ZERO_BD: real := 0.0
  const ONE_BD: real := 1.0
  const ZERO_BI: int := 0

  /** Division that yields zero instead of failing when the divisor is zero. */
  function SafeDiv(a: real, b: real): (r: real)
    ensures b == 0.0 ==> r == 0.0
    ensures b != 0.0 ==> r * b == a
  {
    if b == 0.0 then 0.0 else a / b
  }

  /** 10^n as a decimal, used to scale raw token units by `decimals`. */
  function ExponentToBigDecimal(n: nat): (r: real)
    ensures r >= 1.0
  {
    if n == 0 then 1.0 else 10.0 * ExponentToBigDecimal(n - 1)
  }

  /** Integer power, for the constant 2^192. */
  function Pow(base: nat, n: nat): (r: nat)
    ensures base >= 1 ==> r >= 1
  {
    if n == 0 then 1 else base * Pow(base, n - 1)
  }


  lemma {:induction false} PowAdd(base: nat, m: nat, n: nat)
    ensures Pow(base, m + n) == Pow(base, m) * Pow(base, n)
  {
    if m > 0 {
      PowAdd(base, m - 1, n);
      assert Pow(base, m + n) == base * Pow(base, m - 1 + n);
      assert base * (Pow(base, m - 1) * Pow(base, n)) == (base * Pow(base, m - 1)) * Pow(base, n);
    }
  }
}
