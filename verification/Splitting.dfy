/**
  `SplitCoins` of deps/archway-main/pkg/coins.go: every coin is cut at the floor of its
  share, and the two stacks together are the input again.
 */
module Splitting {
  import opened Decimal
  import opened Types
  import opened Text
  import opened Coins

  /** What a stack gets of an amount. */
  type Part = int -> int

  /** The first stack: the truncated product. */
  function Share(ratio: Dec): Part {
    amount => TruncateInt(Mul(NewDec(amount), ratio))
  }

  /** The second stack: what the coin subtraction leaves. */
  function Rest(ratio: Dec): Part {
    amount => amount - Share(ratio)(amount)
  }

  function Stack(part: Part, coins: seq<Coin>): seq<Coin> {
    if coins == [] then []
    else Keep(Coin(coins[0].denom, part(coins[0].amount))) + Stack(part, coins[1..])
  }

  // ---- The loop ----------------------------------------------------------------------------

  ghost predicate Ascending(coins: seq<Coin>) {
    coins == [] || (Below(coins[0].denom, coins[1..]) && Ascending(coins[1..]))
  }

  ghost predicate Above(coins: seq<Coin>, d: string) {
    forall i :: 0 <= i < |coins| ==> Less(coins[i].denom, d)
  }

  predicate NoZeros(coins: seq<Coin>) {
    forall i :: 0 <= i < |coins| ==> coins[i].amount != 0
  }

  lemma {:induction false} ValidAscends(coins: seq<Coin>)
    requires Valid(coins)
    ensures Ascending(coins)
  {
    if coins != [] {
      HeadAmount(coins);
      ValidAscends(coins[1..]);
    }
  }

  lemma {:induction false} AscendingPrefix(coins: seq<Coin>, i: nat)
    requires Ascending(coins) && i < |coins|
    ensures Ascending(coins[..i]) && Above(coins[..i], coins[i].denom)
  {
    if i > 0 {
      AscendingPrefix(coins[1..], i - 1);
      assert coins[..i][1..] == coins[1..][..i - 1];
      assert coins[1..][i - 1] == coins[i];
      forall k | 0 <= k < i ensures Less(coins[..i][k].denom, coins[i].denom) {
        assert k > 0 ==> coins[..i][k] == coins[1..][..i - 1][k - 1];
      }
    }
  }

  lemma {:induction false} AscendingIsSorted(coins: seq<Coin>)
    requires Ascending(coins)
    ensures IsSorted(coins)
  {
    if |coins| > 1 {
      AscendingIsSorted(coins[1..]);
      assert coins[1..][0] == coins[1];
    }
  }

  lemma {:induction false} StackBelow(part: Part, coins: seq<Coin>, d: string)
    ensures Below(d, coins) ==> Below(d, Stack(part, coins))
    ensures Above(coins, d) ==> Above(Stack(part, coins), d)
    ensures NoZeros(Stack(part, coins))
  {
    if coins != [] {
      StackBelow(part, coins[1..], d);
    }
  }

  lemma {:induction false} StackAscends(part: Part, coins: seq<Coin>)
    requires Ascending(coins)
    ensures Ascending(Stack(part, coins))
  {
    if coins != [] {
      var rest := Stack(part, coins[1..]);
      StackAscends(part, coins[1..]);
      StackBelow(part, coins[1..], coins[0].denom);
      var stack := Stack(part, coins);
      assert stack == rest || (stack[0].denom == coins[0].denom && stack[1..] == rest);
    }
  }

  lemma {:induction false} StackSnoc(part: Part, coins: seq<Coin>, c: Coin)
    ensures Stack(part, coins + [c])
         == Stack(part, coins) + Keep(Coin(c.denom, part(c.amount)))
  {
    var longer := coins + [c];
    if coins == [] {
      assert longer[1..] == [];
    } else {
      assert longer[0] == coins[0] && longer[1..] == coins[1..] + [c];
      StackSnoc(part, coins[1..], c);
      Associate(Keep(Coin(coins[0].denom, part(coins[0].amount))), Stack(part, coins[1..]),
            Keep(Coin(c.denom, part(c.amount))));
    }
  }

  /** Adding a coin above all others appends it. */
  lemma {:induction false} MergeAppend(a: seq<Coin>, c: Coin)
    requires Above(a, c.denom) && NoZeros(a)
    ensures Merge(a, [c]) == a + Keep(c) && !Overflows(a, [c])
  {
    if a == [] {
      assert RemoveZeroCoins([c]) == Keep(c) + RemoveZeroCoins([c][1..]);
    } else {
      MergeAppend(a[1..], c);
      assert a == [a[0]] + a[1..];
    }
  }

  /** One round of the loop, for one stack. */
  lemma StackGrows(part: Part, coins: seq<Coin>, i: nat)
    requires Valid(coins) && i < |coins|
    ensures var stack, c := Stack(part, coins[..i]), Coin(coins[i].denom, part(coins[i].amount));
            && IsSorted(stack) && IsSorted([c]) && !Overflows(stack, [c])
            && Merge(stack, [c]) == Stack(part, coins[..i + 1])
  {
    ValidAscends(coins);
    AscendingPrefix(coins, i);
    StackAscends(part, coins[..i]);
    AscendingIsSorted(Stack(part, coins[..i]));
    StackBelow(part, coins[..i], coins[i].denom);
    MergeAppend(Stack(part, coins[..i]), Coin(coins[i].denom, part(coins[i].amount)));
    StackSnoc(part, coins[..i], coins[i]);
    TakeOneMore(coins, i);
  }

  lemma TakeOneMore(coins: seq<Coin>, i: nat)
    requires i < |coins|
    ensures coins[..i] + [coins[i]] == coins[..i + 1]
  {
  }

  /** The coin subtraction panics on this coin. */
  predicate Overdrawn(ratio: Dec, c: Coin) { Rest(ratio)(c.amount) < 0 }

  /** Some step of the computation for this coin panics: the product, the truncation or the subtraction. */
  predicate Panics(ratio: Dec, c: Coin) {
    || !FitsDec(Mul(NewDec(c.amount), ratio))
    || !FitsInt(Share(ratio)(c.amount))
    || !FitsInt(Rest(ratio)(c.amount))
    || Overdrawn(ratio, c)
  }

  ghost predicate Stacked(coins: seq<Coin>, ratio: Dec, i: nat, stack1: seq<Coin>, stack2: seq<Coin>) {
    && i <= |coins|
    && stack1 == Stack(Share(ratio), coins[..i])
    && stack2 == Stack(Rest(ratio), coins[..i])
    && forall j :: 0 <= j < i ==> !Panics(ratio, coins[j])
  }

  lemma BothGrow(coins: seq<Coin>, ratio: Dec, i: nat, stack1: seq<Coin>, stack2: seq<Coin>)
    requires Valid(coins) && i < |coins| && Stacked(coins, ratio, i, stack1, stack2) && !Panics(ratio, coins[i])
    ensures var c1 := Coin(coins[i].denom, Share(ratio)(coins[i].amount));
            var c2 := Coin(coins[i].denom, Rest(ratio)(coins[i].amount));
            && IsSorted(stack1) && IsSorted([c1]) && IsSorted(stack2) && IsSorted([c2])
            && !Overflows(stack1, [c1]) && !Overflows(stack2, [c2])
            && Stacked(coins, ratio, i + 1, Merge(stack1, [c1]), Merge(stack2, [c2]))
  {
    StackGrows(Share(ratio), coins, i);
    StackGrows(Rest(ratio), coins, i);
  }

  lemma AllStacked(coins: seq<Coin>, ratio: Dec, stack1: seq<Coin>, stack2: seq<Coin>)
    requires Stacked(coins, ratio, |coins|, stack1, stack2)
    ensures stack1 == Stack(Share(ratio), coins) && stack2 == Stack(Rest(ratio), coins)
    ensures forall c :: c in coins ==> !Panics(ratio, c)
  {
    assert coins[..|coins|] == coins;
  }

  method SplitCoins(coins: seq<Coin>, ratio: Dec) returns (r: Option<(seq<Coin>, seq<Coin>)>)
    requires Valid(coins)
    ensures r.None? <==> exists c :: c in coins && Panics(ratio, c)
    ensures r.Some? ==> r.value == (Stack(Share(ratio), coins), Stack(Rest(ratio), coins))
  {
    var stack1: seq<Coin>, stack2: seq<Coin> := [], [];
    for i := 0 to |coins|
      invariant Stacked(coins, ratio, i, stack1, stack2)
    {
      var coin := coins[i];
      if Panics(ratio, coin) {
        return None;
      }
      var stack1Coin := Coin(coin.denom, Share(ratio)(coin.amount));
      var stack2Coin := Coin(coin.denom, Rest(ratio)(coin.amount));
      BothGrow(coins, ratio, i, stack1, stack2);
      var sum1 := SafeAdd(stack1, [stack1Coin]);
      var sum2 := SafeAdd(stack2, [stack2Coin]);
      stack1, stack2 := sum1.value, sum2.value;
    }
    AllStacked(coins, ratio, stack1, stack2);
    return Some((stack1, stack2));
  }

  // ---- What the stacks hold -------------------------------------------------------------------

  predicate Ratio(ratio: Dec) { 0 <= ratio <= ONE }

  /** `share` is the floor of the decimal `d`. */
  predicate IsFloor(share: int, d: Dec) {
    share * ONE <= d < (share + 1) * ONE
  }

  lemma ShareIsFloor(ratio: Dec, amount: int)
    requires ratio >= 0 && amount >= 0
    ensures IsFloor(Share(ratio)(amount), amount * ratio)
  {
    MulWhole(amount, ratio);
    Times(0, ratio, amount);
    TruncationIsFloor(amount * ratio);
  }

  lemma TruncationIsFloor(d: Dec)
    requires d >= 0
    ensures IsFloor(TruncateInt(d), d)
  {
  }

  lemma FloorAgainst(share: int, d: Dec, amount: int)
    requires IsFloor(share, d)
    ensures share > amount <==> d - amount * ONE >= ONE
    ensures d >= 0 ==> share >= 0
  {
  }

  lemma Excess(amount: int, ratio: Dec)
    ensures amount * (ratio - ONE) == amount * ratio - amount * ONE
  {
  }

  /** The subtraction panics exactly when the ratio exceeds one by enough to yield a whole unit more. */
  lemma OverdrawnIff(ratio: Dec, c: Coin)
    requires ratio >= 0 && c.amount >= 0
    ensures Overdrawn(ratio, c) <==> c.amount * (ratio - ONE) >= ONE
  {
    ShareIsFloor(ratio, c.amount);
    FloorAgainst(Share(ratio)(c.amount), c.amount * ratio, c.amount);
    Excess(c.amount, ratio);
  }

  /** Takes nothing of nothing, and of an amount at most all of it. */
  ghost predicate Fair(part: Part) {
    forall x: nat :: 0 <= part(x) <= x
  }

  ghost predicate Complementary(one: Part, two: Part) {
    forall x: nat :: one(x) + two(x) == x
  }

  lemma ShareBounds(ratio: Dec, amount: int)
    requires Ratio(ratio) && amount >= 0
    ensures 0 <= Share(ratio)(amount) <= amount
  {
    ShareIsFloor(ratio, amount);
    Times(0, ratio, amount);
    Times(ratio, ONE, amount);
    FloorAgainst(Share(ratio)(amount), amount * ratio, amount);
  }

  lemma PartsAreFair(ratio: Dec)
    requires Ratio(ratio)
    ensures Fair(Share(ratio)) && Fair(Rest(ratio)) && Complementary(Share(ratio), Rest(ratio))
  {
    forall x: nat ensures 0 <= Share(ratio)(x) <= x {
      ShareBounds(ratio, x);
    }
  }

  lemma {:induction false} StackValid(part: Part, coins: seq<Coin>)
    requires Fair(part) && Valid(coins)
    ensures Valid(Stack(part, coins))
  {
    if coins != [] {
      var amount := part(coins[0].amount);
      var rest := Stack(part, coins[1..]);
      StackValid(part, coins[1..]);
      HeadAmount(coins);
      StackBelow(part, coins[1..], coins[0].denom);
      if amount == 0 {
        assert Stack(part, coins) == rest;
      } else {
        ValidCons(Coin(coins[0].denom, amount), rest);
      }
    }
  }

  /** Each stack holds, of every denomination, its part of what the input holds. */
  lemma {:induction false} StackAmount(part: Part, coins: seq<Coin>, d: string)
    requires Valid(coins) && part(0) == 0
    ensures AmountOf(Stack(part, coins), d) == part(AmountOf(coins, d))
  {
    if coins != [] {
      StackAmount(part, coins[1..], d);
      HeadAmount(coins);
      BelowHasNone(coins[0].denom, coins[1..]);
      KeepAmount(Coin(coins[0].denom, part(coins[0].amount)), Stack(part, coins[1..]), d);
    }
  }

  lemma StacksAddBack(one: Part, two: Part, coins: seq<Coin>)
    requires Valid(coins) && Fair(one) && Fair(two) && Complementary(one, two)
    ensures Merge(Stack(one, coins), Stack(two, coins)) == coins
  {
    var s1, s2 := Stack(one, coins), Stack(two, coins);
    StackValid(one, coins);
    StackValid(two, coins);
    MergeValid(s1, s2);
    forall d: string ensures AmountOf(Merge(s1, s2), d) == AmountOf(coins, d) {
      MergeAmount(s1, s2, d);
      StackAmount(one, coins, d);
      StackAmount(two, coins, d);
      AmountsNonNegative(coins, d);
    }
    Extensional(Merge(s1, s2), coins);
  }

  /** For a ratio in [0, 1] the only panic left is that of the product: amounts near 2^256 exceed the decimal. */
  lemma PanicsIff(ratio: Dec, c: Coin)
    requires Ratio(ratio) && 0 <= c.amount < TwoTo256
    ensures Panics(ratio, c) <==> c.amount * ratio >= TwoTo315
  {
    MulWhole(c.amount, ratio);
    Times(0, ratio, c.amount);
    ShareBounds(ratio, c.amount);
    BoundsFit(Share(ratio)(c.amount), Rest(ratio)(c.amount), c.amount);
  }

  lemma BoundsFit(share: int, rest: int, amount: int)
    requires 0 <= share <= amount < TwoTo256 && rest == amount - share
    ensures FitsInt(share) && FitsInt(rest) && rest >= 0
  {
  }

  /** The share of a negative ratio is rounded towards zero as well. */
  lemma NegativeShare(ratio: Dec, amount: int)
    requires ratio < 0 && amount >= 0
    ensures IsFloor(-Share(ratio)(amount), -(amount * ratio))
  {
    MulWhole(amount, ratio);
    NegatedProduct(amount, ratio);
    TruncationIsFloor(-(amount * ratio));
  }

  lemma NegatedProduct(amount: int, ratio: Dec)
    requires ratio < 0 && amount >= 0
    ensures amount * ratio <= 0
  {
  }

  /**
    One coin at any ratio: the product leaves the decimal, the ratio exceeds one by a whole unit of
    the coin, or a negative ratio makes the second part leave the integer.
   */
  lemma PanicsAtAnyRatio(ratio: Dec, c: Coin)
    requires 0 <= c.amount < TwoTo256
    ensures Panics(ratio, c) <==>
            || !(-TwoTo315 < c.amount * ratio < TwoTo315)
            || c.amount * ratio - c.amount * ONE >= ONE
            || c.amount * ONE - c.amount * ratio >= TwoTo256 * ONE
  {
    MulWhole(c.amount, ratio);
    if ratio >= 0 {
      Times(0, ratio, c.amount);
      ShareIsFloor(ratio, c.amount);
      FloorAgainst(Share(ratio)(c.amount), c.amount * ratio, c.amount);
    } else {
      NegativeShare(ratio, c.amount);
      NegatedProduct(c.amount, ratio);
    }
  }

  /** The largest amount cannot even be split at the ratio one. */
  lemma HugeAmountPanics(denom: string)
    ensures Panics(ONE, Coin(denom, TwoTo256 - 1))
  {
    PanicsIff(ONE, Coin(denom, TwoTo256 - 1));
  }

  /**
    For a ratio in [0, 1] the split panics if and only if some product exceeds the decimal; both
    stacks are valid, and together they are the input.
   */
  lemma SplitAddsBack(coins: seq<Coin>, ratio: Dec)
    requires Valid(coins) && InRange(coins) && Ratio(ratio)
    ensures (exists c :: c in coins && Panics(ratio, c)) <==> (exists c :: c in coins && c.amount * ratio >= TwoTo315)
    ensures Valid(Stack(Share(ratio), coins)) && Valid(Stack(Rest(ratio), coins))
    ensures Merge(Stack(Share(ratio), coins), Stack(Rest(ratio), coins)) == coins
  {
    forall c | c in coins ensures Panics(ratio, c) <==> c.amount * ratio >= TwoTo315 {
      PositiveAmount(coins, c);
      PanicsIff(ratio, c);
    }
    PartsAreFair(ratio);
    StackValid(Share(ratio), coins);
    StackValid(Rest(ratio), coins);
    StacksAddBack(Share(ratio), Rest(ratio), coins);
  }

  lemma {:induction false} PositiveAmount(coins: seq<Coin>, c: Coin)
    requires Valid(coins) && c in coins
    ensures c.amount > 0
  {
    if c != coins[0] {
      PositiveAmount(coins[1..], c);
    }
  }

  lemma ShareOfZero(ratio: Dec)
    ensures Share(ratio)(0) == 0
  {
  }

  /** The first stack is the floor, per denomination. */
  lemma FirstStackIsFloor(coins: seq<Coin>, ratio: Dec, d: string)
    requires Valid(coins) && ratio >= 0
    ensures IsFloor(AmountOf(Stack(Share(ratio), coins), d), AmountOf(coins, d) * ratio)
  {
    ShareOfZero(ratio);
    StackAmount(Share(ratio), coins, d);
    AmountsNonNegative(coins, d);
    ShareIsFloor(ratio, AmountOf(coins, d));
  }

  lemma FloorsAdd(p: int, q: int, r: int, x: int, y: int, ratio: Dec)
    requires IsFloor(p, x * ratio) && IsFloor(q, y * ratio) && IsFloor(r, (x + y) * ratio)
    ensures 0 <= r - (p + q) <= 1
  {
    assert (x + y) * ratio == x * ratio + y * ratio;
  }

  /** Amounts `x` and `y` taken apart, or `z` together, yield the same share up to one unit. */
  ghost predicate NearlyAdds(part: Part, x: nat, y: nat, z: nat) {
    0 <= part(z) - (part(x) + part(y)) <= 1
  }

  lemma SharesAdd(ratio: Dec, x: nat, y: nat)
    requires ratio >= 0
    ensures NearlyAdds(Share(ratio), x, y, x + y)
  {
    ShareIsFloor(ratio, x);
    ShareIsFloor(ratio, y);
    ShareIsFloor(ratio, x + y);
    FloorsAdd(Share(ratio)(x), Share(ratio)(y), Share(ratio)(x + y), x, y, ratio);
  }

  lemma StackOfTotal(part: Part, a: seq<Coin>, b: seq<Coin>, sum: seq<Coin>, d: string)
    requires Valid(a) && Valid(b) && Valid(sum) && part(0) == 0
    requires AmountOf(a, d) >= 0 && AmountOf(b, d) >= 0 && AmountOf(sum, d) >= 0
    requires NearlyAdds(part, AmountOf(a, d), AmountOf(b, d), AmountOf(sum, d))
    ensures 0 <= AmountOf(Stack(part, sum), d) - (AmountOf(Stack(part, a), d) + AmountOf(Stack(part, b), d)) <= 1
  {
    StackAmount(part, a, d);
    StackAmount(part, b, d);
    StackAmount(part, sum, d);
  }

  /** Splitting two bags and splitting their sum differ by at most one unit per denomination. */
  lemma SplitOfSum(a: seq<Coin>, b: seq<Coin>, ratio: Dec, d: string)
    requires Valid(a) && Valid(b) && ratio >= 0
    ensures 0 <= AmountOf(Stack(Share(ratio), Merge(a, b)), d)
                 - (AmountOf(Stack(Share(ratio), a), d) + AmountOf(Stack(Share(ratio), b), d)) <= 1
  {
    MergeValid(a, b);
    MergeAmount(a, b, d);
    AmountsNonNegative(a, d);
    AmountsNonNegative(b, d);
    ShareOfZero(ratio);
    SharesAdd(ratio, AmountOf(a, d), AmountOf(b, d));
    StackOfTotal(Share(ratio), a, b, Merge(a, b), d);
  }
}
