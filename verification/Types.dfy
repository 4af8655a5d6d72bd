/** Values and facts shared by the modules. */
module Types {

  datatype Option<+T> = None | Some(value: T)

  datatype Coin = Coin(denom: string, amount: int)

  // ---- Machine words ------------------------------------------------------------------

  const TwoTo63: int := 0x8000_0000_0000_0000
  const TwoTo64: int := 0x1_0000_0000_0000_0000

  type uint64 = x: int | 0 <= x < TwoTo64
  type int64 = x: int | -TwoTo63 <= x < TwoTo63

  const MaxUint64: uint64 := 0xFFFF_FFFF_FFFF_FFFF

  function Min(a: int, b: int): int { if a < b then a else b }

  lemma Associate<T>(a: seq<T>, b: seq<T>, c: seq<T>)
    ensures (a + b) + c == a + (b + c)
  {
  }
}
