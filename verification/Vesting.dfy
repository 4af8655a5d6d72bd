/**
  Linear vesting: `GetVestedCoinsAt` of utils/utils.go, over 64-bit times.
 */
module Vesting {
  import opened Types
  import opened Decimal

  /** Two's-complement wrap-around of a sum. */
  function Wrap64(x: int): int64 {
    (x + TwoTo63) % (2 * TwoTo63) - TwoTo63
  }

  datatype Outcome = Vested(coins: seq<Coin>) | Panic

  predicate NotStarted(vAt: int64, vStart: int64, vLength: int64) {
    vAt < 0 || vStart < 0 || vLength < 0 || vAt <= vStart
  }

  predicate Ended(vAt: int64, vStart: int64, vLength: int64) {
    !NotStarted(vAt, vStart, vLength) && vAt >= Wrap64(vStart + vLength)
  }

  /** The end branch is taken at the end, and from the start whenever the end does not fit 64 bits. */
  lemma EndedIff(vAt: int64, vStart: int64, vLength: int64)
    requires !NotStarted(vAt, vStart, vLength)
    ensures Ended(vAt, vStart, vLength) <==> vAt >= vStart + vLength || vStart + vLength >= TwoTo63
  {
  }

  /** The scalar never divides by zero. */
  lemma RunningHasLength(vAt: int64, vStart: int64, vLength: int64)
    requires !NotStarted(vAt, vStart, vLength) && !Ended(vAt, vStart, vLength)
    ensures 0 < vAt - vStart < vLength
  {
  }

  function Portion(elapsed: int, length: int): Dec
    requires length > 0
  {
    Quo(NewDec(elapsed), NewDec(length))
  }

  function Share(amount: int, portion: Dec): int {
    RoundInt(Mul(NewDec(amount), portion))
  }

  /** What one coin comes to, in every branch. */
  function VestedAmount(vAt: int64, vStart: int64, vLength: int64, amount: int): int {
    if NotStarted(vAt, vStart, vLength) then 0
    else if Ended(vAt, vStart, vLength) then amount
    else RunningHasLength(vAt, vStart, vLength); Share(amount, Portion(vAt - vStart, vLength))
  }

  /** A coin the middle branch panics on: the amount leaves 64 bits, or the new coin is invalid. */
  predicate Unsound(validDenom: string -> bool, coin: Coin, vested: int) {
    !(-TwoTo63 <= coin.amount < TwoTo63) || vested < 0 || !validDenom(coin.denom)
  }

  method GetVestedCoinsAt(validDenom: string -> bool, vAt: int64, vStart: int64, vLength: int64, vCoins: seq<Coin>)
    returns (r: Outcome)
    ensures NotStarted(vAt, vStart, vLength) ==> r == Vested([])
    ensures Ended(vAt, vStart, vLength) ==> r == Vested(vCoins)
    ensures r.Panic? <==>
      && !NotStarted(vAt, vStart, vLength) && !Ended(vAt, vStart, vLength)
      && exists c :: c in vCoins &&
           (c.amount < -TwoTo63 || c.amount >= TwoTo63 || !validDenom(c.denom) || VestedAmount(vAt, vStart, vLength, c.amount) < 0)
    ensures r.Vested? && !NotStarted(vAt, vStart, vLength) ==>
      && |r.coins| == |vCoins|
      && forall i :: 0 <= i < |vCoins| ==>
           r.coins[i] == Coin(vCoins[i].denom, VestedAmount(vAt, vStart, vLength, vCoins[i].amount))
  {
    if vAt < 0 || vStart < 0 || vLength < 0 {
      return Vested([]);
    }
    var vEnd := Wrap64(vStart + vLength);
    if vAt <= vStart {
      return Vested([]);
    } else if vAt >= vEnd {
      return Vested(vCoins);
    }
    RunningHasLength(vAt, vStart, vLength);
    var portion := Quo(NewDec(vAt - vStart), NewDec(vLength));
    var vestedCoins: seq<Coin> := [];
    for i := 0 to |vCoins|
      invariant |vestedCoins| == i
      invariant forall j :: 0 <= j < i ==>
        && vestedCoins[j] == Coin(vCoins[j].denom, VestedAmount(vAt, vStart, vLength, vCoins[j].amount))
        && !Unsound(validDenom, vCoins[j], vestedCoins[j].amount)
    {
      var ovc := vCoins[i];
      var vestedAmt := RoundInt(Mul(NewDec(ovc.amount), portion));
      if Unsound(validDenom, ovc, vestedAmt) {
        return Panic;
      }
      vestedCoins := vestedCoins + [Coin(ovc.denom, vestedAmt)];
    }
    return Vested(vestedCoins);
  }

  // ---- The scalar ------------------------------------------------------------------------

  lemma DivBounds(x: int, m: int)
    requires m > 0
    ensures x / m * m <= x < (x / m + 1) * m
  {
  }

  lemma DivMonotone(x: int, y: int, m: int)
    requires m > 0 && x <= y
    ensures x / m <= y / m
  {
    DivBounds(x, m);
    DivBounds(y, m);
    Cancel(x / m, y / m, m);
  }

  lemma Cancel(p: int, q: int, m: int)
    requires m > 0 && p * m < (q + 1) * m
    ensures p <= q
  {
  }

  lemma DivProduct(m: int, k: int)
    requires m > 0
    ensures (m * k) / m == k
  {
    DivBounds(m * k, m);
    Cancel((m * k) / m, k, m);
    Cancel(k, (m * k) / m, m);
  }

  lemma PortionMonotone(a: int, b: int, length: int)
    requires 0 <= a <= b && length > 0
    ensures Portion(a, length) <= Portion(b, length)
  {
    var m := NewDec(length);
    var x, y := NewDec(a) * (ONE * ONE), NewDec(b) * (ONE * ONE);
    DivMonotone(x, y, m);
    ChopMonotone(x / m, y / m);
  }

  lemma PortionFull(length: int)
    requires length > 0
    ensures Portion(0, length) == 0
    ensures Portion(length, length) == ONE
  {
    var m := NewDec(length);
    DivProduct(m, ONE * ONE);
    ChopWhole(ONE);
    ChopWhole(0);
  }

  lemma ShareMonotone(amount: int, p: Dec, q: Dec)
    requires amount >= 0 && p <= q
    ensures Share(amount, p) <= Share(amount, q)
  {
    MulWhole(amount, p);
    MulWhole(amount, q);
    Times(p, q, amount);
    ChopMonotone(amount * p, amount * q);
  }

  lemma ShareEnds(amount: int)
    ensures Share(amount, 0) == 0 && Share(amount, ONE) == amount
  {
    MulWhole(amount, 0);
    MulWhole(amount, ONE);
    ChopWhole(amount);
    ChopWhole(0);
  }

  // ---- Bounds and monotonicity --------------------------------------------------------------

  lemma VestedBounds(vAt: int64, vStart: int64, vLength: int64, amount: int)
    requires amount >= 0
    ensures 0 <= VestedAmount(vAt, vStart, vLength, amount) <= amount
  {
    if !NotStarted(vAt, vStart, vLength) && !Ended(vAt, vStart, vLength) {
      RunningHasLength(vAt, vStart, vLength);
      var portion := Portion(vAt - vStart, vLength);
      PortionFull(vLength);
      PortionMonotone(0, vAt - vStart, vLength);
      PortionMonotone(vAt - vStart, vLength, vLength);
      ShareEnds(amount);
      ShareMonotone(amount, 0, portion);
      ShareMonotone(amount, portion, ONE);
    }
  }

  /** More time never vests less, across all branches and even when the end wraps around. */
  lemma VestedMonotone(t: int64, u: int64, vStart: int64, vLength: int64, amount: int)
    requires t <= u && amount >= 0
    ensures VestedAmount(t, vStart, vLength, amount) <= VestedAmount(u, vStart, vLength, amount)
  {
    VestedBounds(t, vStart, vLength, amount);
    VestedBounds(u, vStart, vLength, amount);
    if !NotStarted(t, vStart, vLength) && !Ended(u, vStart, vLength) {
      RunningHasLength(t, vStart, vLength);
      RunningHasLength(u, vStart, vLength);
      PortionMonotone(t - vStart, u - vStart, vLength);
      ShareMonotone(amount, Portion(t - vStart, vLength), Portion(u - vStart, vLength));
    }
  }

  /** Only a negative amount is vested below zero. */
  lemma NegativeOnlyBelow(vAt: int64, vStart: int64, vLength: int64, amount: int)
    requires VestedAmount(vAt, vStart, vLength, amount) < 0
    ensures amount < 0
  {
    if amount >= 0 {
      VestedBounds(vAt, vStart, vLength, amount);
    }
  }

  // ---- Exact rounding --------------------------------------------------------------------------

  /** The scalar is the elapsed share at 36 digits, cut off there and rounded half to even to 18. */
  lemma PortionExact(a: int, length: int)
    requires 0 <= a && length > 0
    ensures Nearest(a * ONE * ONE / length, Portion(a, length))
  {
    var m, x := NewDec(length), NewDec(a) * (ONE * ONE);
    var y := a * ONE * ONE;
    assert x == y * ONE && m == length * ONE;
    DivBounds(y, length);
    DivBounds(x, m);
    assert x / m * length * ONE <= y * ONE < (x / m + 1) * length * ONE;
    assert x / m * length <= y < (x / m + 1) * length;
    Cancel(x / m, y / length, length);
    Cancel(y / length, x / m, length);
    ChopIsNearest(x / m);
  }

  /** While vesting runs, the vested amount is the product with that scalar, rounded half to even. */
  lemma VestedExact(vAt: int64, vStart: int64, vLength: int64, amount: int) returns (scalar: Dec)
    requires 0 <= vStart < vAt < vStart + vLength < TwoTo63
    ensures Nearest((vAt - vStart) * ONE * ONE / vLength, scalar)
    ensures Nearest(amount * scalar, VestedAmount(vAt, vStart, vLength, amount))
  {
    EndedIff(vAt, vStart, vLength);
    scalar := Portion(vAt - vStart, vLength);
    PortionExact(vAt - vStart, vLength);
    MulWhole(amount, scalar);
    ChopIsNearest(amount * scalar);
  }

  /** Nothing before the start or for negative times, everything from the end on. */
  lemma VestedOutside(vAt: int64, vStart: int64, vLength: int64, amount: int)
    ensures vAt < 0 || vStart < 0 || vLength < 0 || vAt <= vStart ==> VestedAmount(vAt, vStart, vLength, amount) == 0
    ensures 0 <= vStart < vAt && 0 <= vLength && vAt >= vStart + vLength ==> VestedAmount(vAt, vStart, vLength, amount) == amount
  {
    if 0 <= vStart < vAt && 0 <= vLength && vAt >= vStart + vLength {
      EndedIff(vAt, vStart, vLength);
    }
  }

  // ---- Accuracy --------------------------------------------------------------------------------

  function Abs(x: int): nat { if x < 0 then -x else x }

  /** `vested` differs from the exact share `amount * elapsed / length` by at most 1/2 + amount/10^18. */
  predicate Accurate(vested: int, amount: int, elapsed: int, length: int) {
    2 * ONE * Abs(vested * length - amount * elapsed) <= length * (ONE + 2 * amount)
  }

  /** The scalar is within one unit of its last place. */
  lemma PortionAccurate(a: int, length: int)
    requires 0 <= a && length > 0
    ensures Abs(Portion(a, length) * length - a * ONE) <= length
  {
    var m, x := NewDec(length), NewDec(a) * (ONE * ONE);
    var f := x / m;
    DivBounds(x, m);
    assert x == a * ONE * ONE * ONE;
    assert f * length * ONE <= x < (f + 1) * length * ONE;
    assert f * length <= a * ONE * ONE < (f + 1) * length;
    ChopIsNearest(f);
    var p := Portion(a, length);
    assert -ONE <= 2 * (f - p * ONE) <= ONE;
    ScaledBounds(p, f, length, a);
  }

  lemma ScaledBounds(p: int, f: int, length: int, a: int)
    requires length > 0 && -ONE <= 2 * (f - p * ONE) <= ONE
    requires f * length <= a * ONE * ONE < (f + 1) * length
    ensures Abs(p * length - a * ONE) <= length
  {
    Times(2 * (f - p * ONE), ONE, length);
    Times(-ONE, 2 * (f - p * ONE), length);
    var g := f * length;
    var h := p * length;
    assert (2 * (f - p * ONE)) * length == 2 * g - 2 * ONE * h;
    assert (f + 1) * length == g + length;
  }

  lemma ShareAccurate(amount: int, a: int, length: int)
    requires amount >= 0 && 0 <= a && length > 0
    ensures Accurate(Share(amount, Portion(a, length)), amount, a, length)
  {
    var p := Portion(a, length);
    var v := Share(amount, p);
    MulWhole(amount, p);
    ChopIsNearest(amount * p);
    PortionAccurate(a, length);
    Combine(v, amount, p, a, length);
  }

  lemma Combine(v: int, amount: int, p: int, a: int, length: int)
    requires length > 0 && amount >= 0
    requires -ONE <= 2 * (amount * p - v * ONE) <= ONE
    requires Abs(p * length - a * ONE) <= length
    ensures Accurate(v, amount, a, length)
  {
    RoundingError(amount * p, v, length);
    ScalarError(amount, p, a, length);
    Total(amount * p * length, v * length, amount * a, length, amount * length);
    RightSide(length, amount);
  }

  lemma RightSide(length: int, amount: int)
    ensures length * (ONE + 2 * amount) == ONE * length + 2 * (amount * length)
  {
  }

  lemma RoundingError(x: int, v: int, m: int)
    requires m > 0 && -ONE <= 2 * (x - v * ONE) <= ONE
    ensures -ONE * m <= 2 * (x * m) - 2 * ONE * (v * m) <= ONE * m
  {
    Times(2 * (x - v * ONE), ONE, m);
    Times(-ONE, 2 * (x - v * ONE), m);
    assert (2 * (x - v * ONE)) * m == 2 * (x * m - (v * ONE) * m);
  }

  lemma ScalarError(amount: int, p: int, a: int, length: int)
    requires amount >= 0 && Abs(p * length - a * ONE) <= length
    ensures -(amount * length) <= amount * p * length - ONE * (amount * a) <= amount * length
  {
    var d := p * length - a * ONE;
    Times(d, length, amount);
    Times(-length, d, amount);
    assert d * amount == amount * p * length - ONE * (amount * a);
  }

  /** The two errors add up: `share` is the rounded scalar times amount and length. */
  lemma Total(share: int, vested: int, exact: int, length: int, slack: int)
    requires -ONE * length <= 2 * share - 2 * ONE * vested <= ONE * length
    requires -slack <= share - ONE * exact <= slack
    ensures 2 * ONE * Abs(vested - exact) <= ONE * length + 2 * slack
  {
  }

  /** While vesting runs, the vested amount is the exact share up to rounding. */
  lemma VestedAccurate(vAt: int64, vStart: int64, vLength: int64, amount: int)
    requires amount >= 0
    requires 0 <= vStart < vAt < vStart + vLength < TwoTo63
    ensures Accurate(VestedAmount(vAt, vStart, vLength, amount), amount, vAt - vStart, vLength)
  {
    EndedIff(vAt, vStart, vLength);
    ShareAccurate(amount, vAt - vStart, vLength);
  }

  /** The elapsed time, at most the whole length. */
  function Elapsed(vAt: int64, vStart: int64, vLength: int64): int {
    if vAt - vStart <= vLength then vAt - vStart else vLength
  }

  ghost predicate AlwaysAccurate(vAt: int64, vStart: int64, vLength: int64) {
    forall amount: nat :: Accurate(VestedAmount(vAt, vStart, vLength, amount), amount, Elapsed(vAt, vStart, vLength), vLength)
  }

  lemma FullAccurate(amount: int, length: int)
    requires amount >= 0 && length > 0
    ensures Accurate(amount, amount, length, length)
  {
    Times(0, ONE + 2 * amount, length);
  }

  /** Releasing everything `left` seconds early. */
  lemma EarlyRelease(amount: int, left: int, length: int)
    requires amount >= 0 && 0 <= left <= length
    ensures Accurate(amount, amount, length - left, length) <==> 2 * amount * (ONE * left - length) <= ONE * length
  {
    assert amount * length - amount * (length - left) == amount * left;
    Times(0, left, amount);
    RightSide(length, amount);
    assert amount * (ONE * left - length) == ONE * (amount * left) - amount * length;
  }

  lemma NearRelease(amount: int, left: int, length: int)
    requires amount >= 0 && 0 <= left && 0 < length && ONE * left <= length
    ensures Accurate(amount, amount, length - left, length)
  {
    EarlyRelease(amount, left, length);
    Times(ONE * left - length, 0, 2 * amount);
  }

  lemma FarRelease(left: int, length: int)
    requires 0 <= left <= length && 0 < length < ONE * left
    ensures !Accurate(ONE * length, ONE * length, length - left, length)
  {
    EarlyRelease(ONE * length, left, length);
    Times(1, ONE * left - length, 2 * (ONE * length));
  }

  /**
    After the start, the vested amount is accurate for every amount if and only if the end
    fits 64 bits or lies so near that releasing everything is within the rounding.
   */
  lemma AccurateIff(vAt: int64, vStart: int64, vLength: int64)
    requires 0 <= vStart < vAt && 0 < vLength
    ensures AlwaysAccurate(vAt, vStart, vLength) <==>
            vStart + vLength < TwoTo63 || ONE * (vStart + vLength - vAt) <= vLength
  {
    EndedIff(vAt, vStart, vLength);
    var left := vStart + vLength - vAt;
    if vStart + vLength < TwoTo63 {
      forall amount: nat
        ensures Accurate(VestedAmount(vAt, vStart, vLength, amount), amount, Elapsed(vAt, vStart, vLength), vLength)
      {
        if left > 0 {
          VestedAccurate(vAt, vStart, vLength, amount);
        } else {
          FullAccurate(amount, vLength);
        }
      }
    } else if ONE * left <= vLength {
      forall amount: nat
        ensures Accurate(VestedAmount(vAt, vStart, vLength, amount), amount, Elapsed(vAt, vStart, vLength), vLength)
      {
        NearRelease(amount, left, vLength);
      }
    } else {
      var amount: nat := ONE * vLength;
      FarRelease(left, vLength);
      assert !Accurate(VestedAmount(vAt, vStart, vLength, amount), amount, Elapsed(vAt, vStart, vLength), vLength);
    }
  }

  /** An end beyond 64 bits wraps, and a second after the start everything is released. */
  lemma OverflowReleasesAll()
    ensures VestedAmount(2, 1, 0x7FFF_FFFF_FFFF_FFFF, 100) == 100
    ensures !Accurate(100, 100, 1, 0x7FFF_FFFF_FFFF_FFFF)
  {
    EndedIff(2, 1, 0x7FFF_FFFF_FFFF_FFFF);
  }
}
