/**
  Coin lists of the Cosmos SDK and their addition
  (deps/archway-main/vendor/github.com/cosmos/cosmos-sdk/types/coin.go).
 */
module Coins {
  import opened Types
  import opened Decimal
  import opened Text

  // ---- Valid lists --------------------------------------------------------------------------

  /** Positive amounts, each denomination above the one before. */
  predicate Valid(coins: seq<Coin>) {
    coins == [] ||
    (coins[0].amount > 0 && (|coins| > 1 ==> Less(coins[0].denom, coins[1].denom)) && Valid(coins[1..]))
  }

  predicate IsSorted(coins: seq<Coin>) {
    |coins| > 1 ==> Compare(coins[0].denom, coins[1].denom) <= 0 && IsSorted(coins[1..])
  }

  /** No denomination comes after a later one; equal ones may repeat. */
  lemma {:induction false} SortedIff(coins: seq<Coin>)
    ensures IsSorted(coins) <==> forall i, j :: 0 <= i < j < |coins| ==> !Less(coins[j].denom, coins[i].denom)
  {
    if |coins| > 1 {
      var rest := coins[1..];
      SortedIff(rest);
      CompareEqual(coins[0].denom, coins[1].denom);
      assert forall i :: 0 <= i < |rest| ==> rest[i] == coins[i + 1];
      if IsSorted(coins) {
        forall j | 0 < j < |coins|
          ensures !Less(coins[j].denom, coins[0].denom)
        {
          if j > 1 {
            assert !Less(rest[j - 1].denom, rest[0].denom);
            NotLessTransitive(coins[0].denom, coins[1].denom, coins[j].denom);
          }
        }
      }
    }
  }

  lemma NotLessTransitive(a: string, b: string, c: string)
    requires !Less(b, a) && !Less(c, b)
    ensures !Less(c, a)
  {
    CompareEqual(a, b);
    CompareEqual(b, c);
    if Less(a, b) && Less(b, c) {
      LessTransitive(a, b, c);
      CompareEqual(a, c);
    }
  }

  /** `d` comes before every denomination of the list. */
  ghost predicate Below(d: string, coins: seq<Coin>) {
    forall i :: 0 <= i < |coins| ==> Less(d, coins[i].denom)
  }

  lemma {:induction false} ValidIsBelow(d: string, coins: seq<Coin>)
    requires Valid(coins) && (coins != [] ==> Less(d, coins[0].denom))
    ensures Below(d, coins)
  {
    if |coins| > 1 {
      LessTransitive(d, coins[0].denom, coins[1].denom);
      ValidIsBelow(d, coins[1..]);
      forall i | 0 <= i < |coins| ensures Less(d, coins[i].denom) {
        if i > 0 {
          assert coins[i] == coins[1..][i - 1];
        }
      }
    }
  }

  lemma ValidCons(c: Coin, rest: seq<Coin>)
    requires c.amount > 0 && Below(c.denom, rest) && Valid(rest)
    ensures Valid([c] + rest)
  {
  }

  // ---- Amounts --------------------------------------------------------------------------------

  function AmountOf(coins: seq<Coin>, d: string): int {
    if coins == [] then 0
    else (if coins[0].denom == d then coins[0].amount else 0) + AmountOf(coins[1..], d)
  }

  lemma {:induction false} BelowHasNone(d: string, coins: seq<Coin>)
    requires Below(d, coins)
    ensures AmountOf(coins, d) == 0
  {
    if coins != [] {
      CompareEqual(d, coins[0].denom);
      BelowHasNone(d, coins[1..]);
    }
  }

  lemma AmountCons(c: Coin, rest: seq<Coin>, d: string)
    ensures AmountOf([c] + rest, d) == (if c.denom == d then c.amount else 0) + AmountOf(rest, d)
  {
  }

  lemma HeadAmount(coins: seq<Coin>)
    requires Valid(coins) && coins != []
    ensures Below(coins[0].denom, coins[1..])
    ensures AmountOf(coins, coins[0].denom) == coins[0].amount
  {
    ValidIsBelow(coins[0].denom, coins[1..]);
    BelowHasNone(coins[0].denom, coins[1..]);
  }

  /** A valid list never holds nothing of a negative kind. */
  lemma {:induction false} AmountsNonNegative(coins: seq<Coin>, d: string)
    requires Valid(coins)
    ensures AmountOf(coins, d) >= 0
  {
    if coins != [] {
      AmountsNonNegative(coins[1..], d);
    }
  }

  /** The list with the smaller first denomination holds something the other does not. */
  lemma HeadsDiffer(a: seq<Coin>, b: seq<Coin>)
    requires Valid(a) && Valid(b) && a != [] && (b == [] || Less(a[0].denom, b[0].denom))
    ensures AmountOf(a, a[0].denom) != AmountOf(b, a[0].denom)
  {
    HeadAmount(a);
    ValidIsBelow(a[0].denom, b);
    BelowHasNone(a[0].denom, b);
  }

  ghost predicate SameAmounts(a: seq<Coin>, b: seq<Coin>) {
    forall d: string :: AmountOf(a, d) == AmountOf(b, d)
  }

  lemma SameHead(a: seq<Coin>, b: seq<Coin>)
    requires Valid(a) && Valid(b) && SameAmounts(a, b) && a != []
    ensures b != [] && a[0] == b[0]
  {
    if b == [] || Less(a[0].denom, b[0].denom) {
      HeadsDiffer(a, b);
      assert false;
    }
    CompareEqual(a[0].denom, b[0].denom);
    if Less(b[0].denom, a[0].denom) {
      HeadsDiffer(b, a);
      assert false;
    }
    HeadAmount(a);
    HeadAmount(b);
  }

  /** A valid list is determined by its amounts. */
  lemma {:induction false} Extensional(a: seq<Coin>, b: seq<Coin>)
    requires Valid(a) && Valid(b) && SameAmounts(a, b)
    ensures a == b
  {
    if a == [] {
      if b != [] {
        SameHead(b, a);
      }
    } else {
      SameHead(a, b);
      forall d: string ensures AmountOf(a[1..], d) == AmountOf(b[1..], d) {
        assert AmountOf(a, d) == AmountOf(b, d);
      }
      Extensional(a[1..], b[1..]);
      assert a == [a[0]] + a[1..] && b == [b[0]] + b[1..];
    }
  }

  // ---- Adding ------------------------------------------------------------------------------------

  function Keep(c: Coin): seq<Coin> { if c.amount == 0 then [] else [c] }

  function RemoveZeroCoins(coins: seq<Coin>): seq<Coin> {
    if coins == [] then [] else Keep(coins[0]) + RemoveZeroCoins(coins[1..])
  }

  /** The merge of two sorted lists. */
  function Merge(a: seq<Coin>, b: seq<Coin>): seq<Coin>
    decreases |a| + |b|
  {
    if a == [] then RemoveZeroCoins(b)
    else if b == [] then RemoveZeroCoins(a)
    else
      var order := Compare(a[0].denom, b[0].denom);
      if order < 0 then Keep(a[0]) + Merge(a[1..], b)
      else if order == 0 then Keep(Coin(a[0].denom, a[0].amount + b[0].amount)) + Merge(a[1..], b[1..])
      else Keep(b[0]) + Merge(a, b[1..])
  }

  /** Two coins of one denomination add up to more than an `Int` holds. */
  predicate Overflows(a: seq<Coin>, b: seq<Coin>)
    decreases |a| + |b|
  {
    a != [] && b != [] &&
    (var order := Compare(a[0].denom, b[0].denom);
     if order < 0 then Overflows(a[1..], b)
     else if order == 0 then !FitsInt(a[0].amount + b[0].amount) || Overflows(a[1..], b[1..])
     else Overflows(a, b[1..]))
  }

  /** `sum` is the merge up to positions `i` and `j`, and nothing overflowed so far. */
  ghost predicate Merging(a: seq<Coin>, b: seq<Coin>, i: nat, j: nat, sum: seq<Coin>) {
    && i <= |a| && j <= |b| && sum + Merge(a[i..], b[j..]) == Merge(a, b)
    && Overflows(a[i..], b[j..]) == Overflows(a, b)
  }

  lemma MergeStart(a: seq<Coin>, b: seq<Coin>)
    ensures Merging(a, b, 0, 0, [])
  {
  }

  lemma TakeFirst(a: seq<Coin>, b: seq<Coin>, i: nat, j: nat, sum: seq<Coin>)
    requires Merging(a, b, i, j, sum) && i < |a| && j < |b| && Compare(a[i].denom, b[j].denom) < 0
    ensures Merging(a, b, i + 1, j, sum + Keep(a[i]))
  {
    assert a[i..][1..] == a[i + 1..];
    Associate(sum, Keep(a[i]), Merge(a[i + 1..], b[j..]));
  }

  lemma TakeSecond(a: seq<Coin>, b: seq<Coin>, i: nat, j: nat, sum: seq<Coin>)
    requires Merging(a, b, i, j, sum) && i < |a| && j < |b| && Compare(a[i].denom, b[j].denom) > 0
    ensures Merging(a, b, i, j + 1, sum + Keep(b[j]))
  {
    assert b[j..][1..] == b[j + 1..];
    Associate(sum, Keep(b[j]), Merge(a[i..], b[j + 1..]));
  }

  lemma TakeBoth(a: seq<Coin>, b: seq<Coin>, i: nat, j: nat, sum: seq<Coin>)
    requires Merging(a, b, i, j, sum) && i < |a| && j < |b| && Compare(a[i].denom, b[j].denom) == 0
    ensures if FitsInt(a[i].amount + b[j].amount)
            then Merging(a, b, i + 1, j + 1, sum + Keep(Coin(a[i].denom, a[i].amount + b[j].amount)))
            else Overflows(a, b)
  {
    assert a[i..][1..] == a[i + 1..] && b[j..][1..] == b[j + 1..];
    Associate(sum, Keep(Coin(a[i].denom, a[i].amount + b[j].amount)), Merge(a[i + 1..], b[j + 1..]));
  }

  lemma MergeEnd(a: seq<Coin>, b: seq<Coin>, i: nat, j: nat, sum: seq<Coin>)
    requires Merging(a, b, i, j, sum) && (i == |a| || j == |b|)
    ensures sum + RemoveZeroCoins(if i == |a| then b[j..] else a[i..]) == Merge(a, b) && !Overflows(a, b)
  {
  }

  /** The loop of `safeAdd`, up to the end of one list or the first overflow. */
  method MergeLoop(coins: seq<Coin>, coinsB: seq<Coin>) returns (fits: bool, sum: seq<Coin>, indexA: nat, indexB: nat)
    ensures !fits ==> Overflows(coins, coinsB)
    ensures fits ==> Merging(coins, coinsB, indexA, indexB, sum) && (indexA == |coins| || indexB == |coinsB|)
  {
    fits, sum, indexA, indexB := true, [], 0, 0;
    MergeStart(coins, coinsB);
    while indexA < |coins| && indexB < |coinsB|
      invariant fits && Merging(coins, coinsB, indexA, indexB, sum)
      decreases |coins| - indexA + |coinsB| - indexB
    {
      var coinA, coinB := coins[indexA], coinsB[indexB];
      var order := Compare(coinA.denom, coinB.denom);
      if order < 0 {
        TakeFirst(coins, coinsB, indexA, indexB, sum);
        sum := sum + Keep(coinA);
        indexA := indexA + 1;
      } else if order == 0 {
        TakeBoth(coins, coinsB, indexA, indexB, sum);
        if !FitsInt(coinA.amount + coinB.amount) {
          fits := false;
          return;
        }
        sum := sum + Keep(Coin(coinA.denom, coinA.amount + coinB.amount));
        indexA, indexB := indexA + 1, indexB + 1;
      } else {
        TakeSecond(coins, coinsB, indexA, indexB, sum);
        sum := sum + Keep(coinB);
        indexB := indexB + 1;
      }
    }
  }

  method SafeAdd(coins: seq<Coin>, coinsB: seq<Coin>) returns (r: Option<seq<Coin>>)
    ensures r == if IsSorted(coins) && IsSorted(coinsB) && !Overflows(coins, coinsB) then Some(Merge(coins, coinsB)) else None
  {
    if !IsSorted(coins) || !IsSorted(coinsB) {
      return None;
    }
    var fits, sum, indexA, indexB := MergeLoop(coins, coinsB);
    if !fits {
      return None;
    }
    MergeEnd(coins, coinsB, indexA, indexB, sum);
    return Some(sum + RemoveZeroCoins(if indexA == |coins| then coinsB[indexB..] else coins[indexA..]));
  }

  lemma KeepAmount(c: Coin, rest: seq<Coin>, d: string)
    ensures AmountOf(Keep(c) + rest, d) == (if c.denom == d then c.amount else 0) + AmountOf(rest, d)
  {
    if c.amount == 0 {
      assert Keep(c) + rest == rest;
    } else {
      AmountCons(c, rest, d);
    }
  }

  lemma {:induction false} RemoveZeroAmount(coins: seq<Coin>, d: string)
    ensures AmountOf(RemoveZeroCoins(coins), d) == AmountOf(coins, d)
  {
    if coins != [] {
      RemoveZeroAmount(coins[1..], d);
      KeepAmount(coins[0], RemoveZeroCoins(coins[1..]), d);
    }
  }

  /** Adding lists adds amounts, denomination by denomination. */
  lemma {:induction false} MergeAmount(a: seq<Coin>, b: seq<Coin>, d: string)
    ensures AmountOf(Merge(a, b), d) == AmountOf(a, d) + AmountOf(b, d)
    decreases |a| + |b|
  {
    if a == [] {
      RemoveZeroAmount(b, d);
    } else if b == [] {
      RemoveZeroAmount(a, d);
    } else {
      var order := Compare(a[0].denom, b[0].denom);
      CompareEqual(a[0].denom, b[0].denom);
      if order < 0 {
        MergeAmount(a[1..], b, d);
        KeepAmount(a[0], Merge(a[1..], b), d);
      } else if order == 0 {
        MergeAmount(a[1..], b[1..], d);
        KeepAmount(Coin(a[0].denom, a[0].amount + b[0].amount), Merge(a[1..], b[1..]), d);
      } else {
        MergeAmount(a, b[1..], d);
        KeepAmount(b[0], Merge(a, b[1..]), d);
      }
    }
  }

  lemma {:induction false} NothingToRemove(coins: seq<Coin>)
    requires Valid(coins)
    ensures RemoveZeroCoins(coins) == coins
  {
    if coins != [] {
      NothingToRemove(coins[1..]);
      assert coins == [coins[0]] + coins[1..];
    }
  }

  lemma {:induction false} BelowMerge(d: string, a: seq<Coin>, b: seq<Coin>)
    requires Valid(a) && Valid(b) && Below(d, a) && Below(d, b)
    ensures Below(d, Merge(a, b))
    decreases |a| + |b|
  {
    if a == [] {
      NothingToRemove(b);
    } else if b == [] {
      NothingToRemove(a);
    } else {
      var order := Compare(a[0].denom, b[0].denom);
      if order < 0 {
        BelowMerge(d, a[1..], b);
      } else if order == 0 {
        BelowMerge(d, a[1..], b[1..]);
      } else {
        BelowMerge(d, a, b[1..]);
      }
    }
  }

  /** The sum of valid lists is valid. */
  lemma {:induction false} MergeValid(a: seq<Coin>, b: seq<Coin>)
    requires Valid(a) && Valid(b)
    ensures Valid(Merge(a, b))
    decreases |a| + |b|
  {
    if a == [] {
      NothingToRemove(b);
    } else if b == [] {
      NothingToRemove(a);
    } else {
      var order := Compare(a[0].denom, b[0].denom);
      CompareEqual(a[0].denom, b[0].denom);
      HeadAmount(a);
      HeadAmount(b);
      if order < 0 {
        MergeValid(a[1..], b);
        ValidIsBelow(a[0].denom, b);
        BelowMerge(a[0].denom, a[1..], b);
        ValidCons(a[0], Merge(a[1..], b));
      } else if order == 0 {
        MergeValid(a[1..], b[1..]);
        BelowMerge(a[0].denom, a[1..], b[1..]);
        ValidCons(Coin(a[0].denom, a[0].amount + b[0].amount), Merge(a[1..], b[1..]));
      } else {
        MergeValid(a, b[1..]);
        ValidIsBelow(b[0].denom, a);
        BelowMerge(b[0].denom, a, b[1..]);
        ValidCons(b[0], Merge(a, b[1..]));
      }
    }
  }

  ghost predicate InRange(coins: seq<Coin>) {
    forall c :: c in coins ==> FitsInt(c.amount)
  }

  lemma {:induction false} AmountFits(coins: seq<Coin>, d: string)
    requires Valid(coins) && InRange(coins)
    ensures FitsInt(AmountOf(coins, d))
  {
    if coins != [] {
      HeadAmount(coins);
      BelowHasNone(coins[0].denom, coins[1..]);
      assert coins[0] in coins && forall c :: c in coins[1..] ==> c in coins;
      AmountFits(coins[1..], d);
    }
  }

  /** Some denomination is too much for an `Int`. */
  ghost predicate TooMuch(a: seq<Coin>, b: seq<Coin>, d: string) {
    !FitsInt(AmountOf(a, d) + AmountOf(b, d))
  }

  lemma TailAmounts(a: seq<Coin>, d: string)
    requires Valid(a) && a != []
    ensures AmountOf(a, d) == if a[0].denom == d then a[0].amount else AmountOf(a[1..], d)
    ensures a[0].denom == d ==> AmountOf(a[1..], d) == 0
  {
    HeadAmount(a);
    BelowHasNone(a[0].denom, a[1..]);
  }

  lemma NoneBelow(d: string, b: seq<Coin>)
    requires Valid(b) && (b != [] ==> Less(d, b[0].denom))
    ensures AmountOf(b, d) == 0
  {
    ValidIsBelow(d, b);
    BelowHasNone(d, b);
  }

  lemma RangeTail(a: seq<Coin>)
    requires Valid(a) && InRange(a) && a != []
    ensures Valid(a[1..]) && InRange(a[1..]) && FitsInt(a[0].amount) && a[0].amount > 0
  {
  }

  /** Adding valid lists overflows exactly when the sum of some denomination does not fit. */
  lemma {:induction false} OverflowsIff(a: seq<Coin>, b: seq<Coin>)
    requires Valid(a) && Valid(b) && InRange(a) && InRange(b)
    ensures Overflows(a, b) <==> exists d: string :: TooMuch(a, b, d)
    decreases |a| + |b|
  {
    if a == [] || b == [] {
      forall d: string ensures !TooMuch(a, b, d) {
        AmountFits(a, d);
        AmountFits(b, d);
      }
    } else {
      var order := Compare(a[0].denom, b[0].denom);
      CompareEqual(a[0].denom, b[0].denom);
      RangeTail(a);
      RangeTail(b);
      if order < 0 {
        NoneBelow(a[0].denom, b);
        OverflowsIff(a[1..], b);
        forall d: string ensures TooMuch(a, b, d) <==> TooMuch(a[1..], b, d) {
          TailAmounts(a, d);
        }
      } else if order == 0 {
        OverflowsIff(a[1..], b[1..]);
        forall d: string
          ensures TooMuch(a, b, d) <==>
                  (if d == a[0].denom then !FitsInt(a[0].amount + b[0].amount) else TooMuch(a[1..], b[1..], d))
        {
          TailAmounts(a, d);
          TailAmounts(b, d);
        }
        TailAmounts(a, a[0].denom);
        TailAmounts(b, a[0].denom);
        assert !TooMuch(a[1..], b[1..], a[0].denom);
      } else {
        NoneBelow(b[0].denom, a);
        OverflowsIff(a, b[1..]);
        forall d: string ensures TooMuch(a, b, d) <==> TooMuch(a, b[1..], d) {
          TailAmounts(b, d);
        }
      }
    }
  }
}
