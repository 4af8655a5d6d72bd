/**
  `QueryBalance` of deps/relayer/relayer/query.go: balances shown under the full paths of their
  denomination traces.
 */
module Balances {
  import opened Types
  import opened Denoms

  /** `strings.EqualFold` is a parameter, and so are the hash and the answers to the queries. */
  type EqualFold = (string, string) -> bool

  /** The coin under the full path of the first trace whose denomination it has. */
  function Shown(same: EqualFold, hash: Hash, traces: seq<Trace>, c: Coin): Coin {
    if traces == [] then c
    else if same(c.denom, IBCDenom(hash, traces[0])) then Coin(GetFullDenomPath(traces[0]), c.amount)
    else Shown(same, hash, traces[1..], c)
  }

  function ShownAll(same: EqualFold, hash: Hash, traces: seq<Trace>, coins: seq<Coin>): seq<Coin> {
    if coins == [] then []
    else
      var k := |coins| - 1;
      ShownAll(same, hash, traces, coins[..k]) + (if coins[k].amount == 0 then [] else [Shown(same, hash, traces, coins[k])])
  }

  method QueryBalance(same: EqualFold, hash: Hash, traces: seq<Trace>, coins: seq<Coin>, showDenoms: bool) returns (out: seq<Coin>)
    ensures out == if showDenoms || traces == [] then coins else ShownAll(same, hash, traces, coins)
  {
    if showDenoms || |traces| == 0 {
      return coins;
    }
    out := [];
    for k := 0 to |coins|
      invariant out == ShownAll(same, hash, traces, coins[..k])
    {
      var c := coins[k];
      assert coins[..k + 1][..k] == coins[..k];
      if c.amount == 0 {
        continue;
      }
      ghost var before := out;
      assert traces[0..] == traces;
      for i := 0 to |traces|
        invariant out == before && i < |traces|
        invariant Shown(same, hash, traces[i..], c) == Shown(same, hash, traces, c)
      {
        assert traces[i..][1..] == traces[i + 1..];
        if same(c.denom, IBCDenom(hash, traces[i])) {
          out := out + [Coin(GetFullDenomPath(traces[i]), c.amount)];
          break;
        }
        if i == |traces| - 1 {
          out := out + [c];
          break;
        }
      }
    }
    assert coins[..|coins|] == coins;
  }

  // ---- What is shown --------------------------------------------------------------------------

  /** Trace `k` is the first that matches; `k` is the number of traces when none does. */
  ghost predicate FirstMatch(same: EqualFold, hash: Hash, traces: seq<Trace>, denom: string, k: nat) {
    && k <= |traces|
    && (forall i :: 0 <= i < k ==> !same(denom, IBCDenom(hash, traces[i])))
    && (k < |traces| ==> same(denom, IBCDenom(hash, traces[k])))
  }

  lemma {:induction false} ShownIsFirst(same: EqualFold, hash: Hash, traces: seq<Trace>, c: Coin, k: nat)
    requires FirstMatch(same, hash, traces, c.denom, k)
    ensures Shown(same, hash, traces, c) == if k < |traces| then Coin(GetFullDenomPath(traces[k]), c.amount) else c
  {
    if k > 0 {
      assert !same(c.denom, IBCDenom(hash, traces[0]));
      ShownIsFirst(same, hash, traces[1..], c, k - 1);
    }
  }

  function NonZero(coins: seq<Coin>): seq<int> {
    if coins == [] then []
    else
      var k := |coins| - 1;
      NonZero(coins[..k]) + (if coins[k].amount == 0 then [] else [coins[k].amount])
  }

  function Amounts(coins: seq<Coin>): seq<int> { seq(|coins|, i requires 0 <= i < |coins| => coins[i].amount) }

  lemma {:induction false} ShownAmount(same: EqualFold, hash: Hash, traces: seq<Trace>, c: Coin)
    ensures Shown(same, hash, traces, c).amount == c.amount
  {
    if traces != [] {
      ShownAmount(same, hash, traces[1..], c);
    }
  }

  /** Every non-zero coin appears once, in order and with its amount. */
  lemma {:induction false} AmountsConserved(same: EqualFold, hash: Hash, traces: seq<Trace>, coins: seq<Coin>)
    ensures Amounts(ShownAll(same, hash, traces, coins)) == NonZero(coins)
  {
    if coins != [] {
      var k := |coins| - 1;
      AmountsConserved(same, hash, traces, coins[..k]);
      ShownAmount(same, hash, traces, coins[k]);
    }
  }

  /** `at` lists the positions of the non-zero coins, in order. */
  ghost predicate NonZeroAt(coins: seq<Coin>, at: seq<nat>) {
    && (forall j :: 0 <= j < |at| ==> at[j] < |coins| && coins[at[j]].amount != 0)
    && (forall i, j :: 0 <= i < j < |at| ==> at[i] < at[j])
    && (forall i :: 0 <= i < |coins| && coins[i].amount != 0 ==> i in at)
  }

  /** The name and amount under which a coin is shown: those of its first matching trace, or its own. */
  ghost predicate ShownAs(same: EqualFold, hash: Hash, traces: seq<Trace>, c: Coin, out: Coin) {
    && out.amount == c.amount
    && forall k: nat :: FirstMatch(same, hash, traces, c.denom, k) ==>
         out.denom == if k < |traces| then GetFullDenomPath(traces[k]) else c.denom
  }

  /** What is shown is the non-zero coins, one by one, each under its first matching trace. */
  lemma {:induction false} EachShown(same: EqualFold, hash: Hash, traces: seq<Trace>, coins: seq<Coin>) returns (at: seq<nat>)
    ensures var out := ShownAll(same, hash, traces, coins);
            && NonZeroAt(coins, at) && |out| == |at|
            && forall j :: 0 <= j < |at| ==> ShownAs(same, hash, traces, coins[at[j]], out[j])
  {
    at := [];
    if coins != [] {
      var k := |coins| - 1;
      at := EachShown(same, hash, traces, coins[..k]);
      if coins[k].amount != 0 {
        OneShown(same, hash, traces, coins[k]);
        at := at + [k];
      }
    }
  }

  lemma OneShown(same: EqualFold, hash: Hash, traces: seq<Trace>, c: Coin)
    ensures ShownAs(same, hash, traces, c, Shown(same, hash, traces, c))
  {
    ShownAmount(same, hash, traces, c);
    forall k: nat | FirstMatch(same, hash, traces, c.denom, k)
      ensures Shown(same, hash, traces, c).denom == if k < |traces| then GetFullDenomPath(traces[k]) else c.denom
    {
      ShownIsFirst(same, hash, traces, c, k);
    }
  }

  /** A coin shown under a parsed trace can be sent under that name: the chain takes it for the coin of that trace. */
  lemma ShownIsSendable(hash: Hash, raw: string, amount: int)
    ensures !AllPath(raw) ==> GetFullDenomPath(ParseDenomTrace(raw)) == raw
    ensures !AllPath(raw) ==>
      GetSentCoin(hash, GetFullDenomPath(ParseDenomTrace(raw)), amount) == Coin(IBCDenom(hash, ParseDenomTrace(raw)), amount)
  {
    ParsePrint(raw);
  }
}
