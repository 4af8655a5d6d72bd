/**
  The fixed-point decimals of the Cosmos SDK (vendor/cosmossdk.io/math/dec.go): an integer
  scaled by 10^18, products and quotients rounded half to even.
 */
module Decimal {

  const ONE: int := 1_000_000_000_000_000_000

  const TwoTo256: int := 0x1_0000_0000_0000_0000_0000_0000_0000_0000_0000_0000_0000_0000_0000_0000_0000_0000

  const TwoTo315: int := 0x8_000000_000000_000000_000000_000000_000000_000000_000000_000000_000000_000000_000000_000000

  /** An `Int` holds at most 256 bits, a decimal 315; anything longer panics. */
  predicate FitsInt(x: int) { -TwoTo256 < x < TwoTo256 }

  predicate FitsDec(d: int) { -TwoTo315 < d < TwoTo315 }

  /** Scaled by ONE. */
  type Dec = int

  /** `big.Int.Quo`: truncates toward zero. */
  function TruncQuo(a: int, b: int): int
    requires b != 0
  {
    if a >= 0 then a / b else -((-a) / b)
  }

  /** The quotient cut off behind the point, whatever the signs. */
  lemma TruncTowardsZero(a: int, b: int)
    requires b > 0
    ensures var q := TruncQuo(a, b);
            -b < a - q * b < b && (a >= 0 ==> a - q * b >= 0) && (a <= 0 ==> a - q * b <= 0)
  {
  }

  function ChopPrecisionAndRound(d: int): int
    decreases d < 0
  {
    if d < 0 then -ChopPrecisionAndRound(-d)
    else
      var quo, rem := d / ONE, d % ONE;
      if rem < ONE / 2 then quo
      else if rem > ONE / 2 then quo + 1
      else if quo % 2 == 0 then quo else quo + 1
  }

  function NewDec(i: int): Dec { i * ONE }

  function Mul(a: Dec, b: Dec): Dec { ChopPrecisionAndRound(a * b) }

  function Quo(a: Dec, b: Dec): Dec
    requires b != 0
  {
    ChopPrecisionAndRound(TruncQuo(a * (ONE * ONE), b))
  }

  function RoundInt(d: Dec): int { ChopPrecisionAndRound(d) }

  function TruncateInt(d: Dec): int { TruncQuo(d, ONE) }

  /** `q` is a whole number nearest to `d`, and the even one of two. */
  predicate Nearest(d: int, q: int) {
    var twice := 2 * (d - q * ONE);
    -ONE <= twice <= ONE && (twice == ONE || twice == -ONE ==> q % 2 == 0)
  }

  lemma ChopIsNearest(d: int)
    ensures Nearest(d, ChopPrecisionAndRound(d))
  {
  }

  /** Chopping is rounding half to even, on negative numbers too. */
  lemma ChopIff(d: int, q: int)
    ensures ChopPrecisionAndRound(d) == q <==> Nearest(d, q)
  {
  }

  lemma ChopMonotone(d: int, e: int)
    requires d <= e
    ensures ChopPrecisionAndRound(d) <= ChopPrecisionAndRound(e)
  {
  }

  /** A product is rounded once; a quotient is cut off at 36 digits first. */
  lemma RoundedOnce(a: Dec, b: Dec)
    ensures Nearest(a * b, Mul(a, b))
    ensures b > 0 ==> Nearest(TruncQuo(a * ONE * ONE, b), Quo(a, b))
    ensures Nearest(a, RoundInt(a))
  {
    ChopIsNearest(a * b);
    ChopIsNearest(a);
    if b > 0 {
      assert a * ONE * ONE == a * (ONE * ONE);
      ChopIsNearest(TruncQuo(a * (ONE * ONE), b));
    }
  }

  lemma Times(x: int, y: int, m: int)
    requires x <= y && m >= 0
    ensures x * m <= y * m
  {
  }

  lemma ChopWhole(n: int)
    ensures ChopPrecisionAndRound(n * ONE) == n
  {
  }

  /** Multiplying by a whole number is exact. */
  lemma MulWhole(n: int, d: Dec)
    ensures Mul(NewDec(n), d) == n * d
  {
    assert NewDec(n) * d == (n * d) * ONE;
    ChopWhole(n * d);
  }
}
