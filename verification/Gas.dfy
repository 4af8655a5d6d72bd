/**
  Gas for verifying signatures under nested multisig keys
  (deps/evmos/app/sigverify.go), charged to the basic gas meter of the Cosmos SDK
  (vendor/github.com/cosmos/cosmos-sdk/store/types/gas.go).

  Two mutually recursive methods walk the key tree.  They are proved against one scan
  over the list of selected leaves, and that scan has an exact closed form.
 */
module Gas {
  import opened Types

  const Secp256k1VerifyCost: nat := 21000

  // ---- Keys and signatures -----------------------------------------------------------

  datatype Key = Eth | Ed25519 | Multi(keys: seq<Key>) | Other

  /** The compact bit array of a multisignature; a nil array counts like the empty one. */
  datatype BitArray = BitArray(extraBitsStored: nat, elems: seq<bv8>) {
    function Count(): int {
      if extraBitsStored == 0 then |elems| * 8 else (|elems| - 1) * 8 + extraBitsStored
    }

    /** The byte of bit `i` exists. */
    predicate InRange(i: nat) { i / 8 < |elems| }

    predicate GetIndex(i: nat)
      requires InRange(i)
    {
      elems[i / 8] & ((1 as bv8) << (7 - i % 8)) != 0
    }
  }

  datatype Data = Single | MultiSignature(bits: BitArray, signatures: seq<Data>)

  // ---- The meter -----------------------------------------------------------------------

  class GasMeter {
    const limit: uint64
    var consumed: uint64

    constructor (limit: uint64)
      ensures this.limit == limit && consumed == 0
    {
      this.limit := limit;
      consumed := 0;
    }

    /** The charge is kept even when it panics, and an overflow sticks at the maximum. */
    method ConsumeGas(amount: uint64) returns (ok: bool)
      modifies this
      ensures ok <==> old(consumed) + amount <= limit
      ensures consumed == Min(old(consumed) + amount, MaxUint64)
    {
      if MaxUint64 - consumed < amount {
        consumed := MaxUint64;
        return false;
      }
      consumed := consumed + amount;
      return consumed <= limit;
    }
  }

  // ---- Selected leaves -------------------------------------------------------------------

  datatype Leaf = EthKey | Ed25519Key | Unsupported | WrongData | Missing

  /** The set bits before bit `i`. */
  function Ones(bits: BitArray, i: nat): (n: nat)
    ensures n <= i
  {
    if i == 0 then 0
    else Ones(bits, i - 1) + if bits.InRange(i - 1) && bits.GetIndex(i - 1) then 1 else 0
  }

  function Leaves(key: Key, data: Data): seq<Leaf>
    decreases data, 2
  {
    match key
    case Eth => [EthKey]
    case Ed25519 => [Ed25519Key]
    case Other => [Unsupported]
    case Multi(keys) => if data.Single? then [WrongData] else LeavesFrom(keys, data, 0)
  }

  /**
    The leaves selected by bit `i` alone: the i-th key is paired with the signature whose
    position is the number of set bits before it.
   */
  function LeavesAt(keys: seq<Key>, data: Data, i: nat): seq<Leaf>
    requires data.MultiSignature?
    decreases data, 0
  {
    if !data.bits.InRange(i) then [Missing]
    else if !data.bits.GetIndex(i) then []
    else if i >= |keys| || Ones(data.bits, i) >= |data.signatures| then [Missing]
    else Leaves(keys[i], data.signatures[Ones(data.bits, i)])
  }

  function LeavesFrom(keys: seq<Key>, data: Data, i: nat): seq<Leaf>
    requires data.MultiSignature?
    decreases data, 1, data.bits.Count() - i
  {
    if i >= data.bits.Count() then [] else LeavesAt(keys, data, i) + LeavesFrom(keys, data, i + 1)
  }

  // ---- Scanning leaves ---------------------------------------------------------------------

  datatype Outcome = Accepted | Rejected | OutOfGas | OutOfRange

  datatype Scanned = Scanned(gas: nat, outcome: Outcome)

  /** Charge the leaves in order until one stops the scan. */
  function Scan(gas: nat, limit: nat, edCost: nat, leaves: seq<Leaf>): Scanned
    decreases |leaves|
  {
    if leaves == [] then Scanned(gas, Accepted)
    else
      match leaves[0]
      case EthKey =>
        if gas + Secp256k1VerifyCost <= limit then Scan(gas + Secp256k1VerifyCost, limit, edCost, leaves[1..])
        else Scanned(Min(gas + Secp256k1VerifyCost, MaxUint64), OutOfGas)
      case Ed25519Key =>
        Scanned(Min(gas + edCost, MaxUint64), if gas + edCost <= limit then Rejected else OutOfGas)
      case Unsupported => Scanned(gas, Rejected)
      case WrongData => Scanned(gas, Rejected)
      case Missing => Scanned(gas, OutOfRange)
  }

  lemma {:induction false} ScanConcat(gas: nat, limit: nat, edCost: nat, a: seq<Leaf>, b: seq<Leaf>)
    ensures var first := Scan(gas, limit, edCost, a);
            Scan(gas, limit, edCost, a + b) == if first.outcome.Accepted? then Scan(first.gas, limit, edCost, b) else first
    decreases |a|
  {
    if a == [] {
      assert a + b == b;
    } else {
      assert (a + b)[1..] == a[1..] + b;
      if a[0].EthKey? && gas + Secp256k1VerifyCost <= limit {
        ScanConcat(gas + Secp256k1VerifyCost, limit, edCost, a[1..], b);
      }
    }
  }

  // ---- The recursive walk ---------------------------------------------------------------------

  method SigVerificationGasConsumer(meter: GasMeter, key: Key, data: Data, edCost: uint64) returns (outcome: Outcome)
    modifies meter
    ensures Scanned(meter.consumed, outcome) == Scan(old(meter.consumed), meter.limit, edCost, Leaves(key, data))
    decreases data, 1
  {
    match key
    case Eth =>
      var ok := meter.ConsumeGas(Secp256k1VerifyCost);
      outcome := if ok then Accepted else OutOfGas;
    case Ed25519 =>
      var ok := meter.ConsumeGas(edCost);
      outcome := if ok then Rejected else OutOfGas;
    case Multi(keys) =>
      if data.Single? {
        return Rejected;
      }
      outcome := ConsumeMultisignatureVerificationGas(meter, keys, data, edCost);
    case Other =>
      outcome := Rejected;
  }

  method ConsumeMultisignatureVerificationGas(meter: GasMeter, keys: seq<Key>, sig: Data, edCost: uint64)
    returns (outcome: Outcome)
    requires sig.MultiSignature?
    modifies meter
    ensures Scanned(meter.consumed, outcome) == Scan(old(meter.consumed), meter.limit, edCost, LeavesFrom(keys, sig, 0))
    decreases sig, 0
  {
    var size := sig.bits.Count();
    var sigIndex, i := 0, 0;
    while i < size
      invariant sigIndex == Ones(sig.bits, i)
      invariant Scan(meter.consumed, meter.limit, edCost, LeavesFrom(keys, sig, i))
             == Scan(old(meter.consumed), meter.limit, edCost, LeavesFrom(keys, sig, 0))
      decreases size - i
    {
      ScanConcat(meter.consumed, meter.limit, edCost, LeavesAt(keys, sig, i), LeavesFrom(keys, sig, i + 1));
      if !sig.bits.InRange(i) {
        return OutOfRange;
      }
      if sig.bits.GetIndex(i) {
        if i >= |keys| || sigIndex >= |sig.signatures| {
          return OutOfRange;
        }
        outcome := SigVerificationGasConsumer(meter, keys[i], sig.signatures[sigIndex], edCost);
        if outcome != Accepted {
          return;
        }
        sigIndex := sigIndex + 1;
      }
      i := i + 1;
    }
    outcome := Accepted;
  }

  // ---- What the walk comes to ------------------------------------------------------------------

  /** How many leading leaves are Ethereum keys. */
  ghost predicate LeadingEth(leaves: seq<Leaf>, n: nat) {
    && n <= |leaves|
    && (forall i :: 0 <= i < n ==> leaves[i].EthKey?)
    && (n < |leaves| ==> !leaves[n].EthKey?)
  }

  /** How many Ethereum keys the remaining gas pays for. */
  function Affordable(gas: nat, limit: nat): nat {
    if gas > limit then 0 else (limit - gas) / Secp256k1VerifyCost
  }

  /** The closed form: `n` is the number of leading Ethereum leaves. */
  function Total(gas: nat, limit: nat, edCost: nat, leaves: seq<Leaf>, n: nat): Scanned
    requires n <= |leaves|
  {
    var spent := gas + Secp256k1VerifyCost * n;
    if n > Affordable(gas, limit) then
      Scanned(Min(gas + Secp256k1VerifyCost * (Affordable(gas, limit) + 1), MaxUint64), OutOfGas)
    else if n == |leaves| then Scanned(spent, Accepted)
    else if leaves[n].Ed25519Key? then
      Scanned(Min(spent + edCost, MaxUint64), if spent + edCost <= limit then Rejected else OutOfGas)
    else Scanned(spent, if leaves[n].Missing? then OutOfRange else Rejected)
  }

  lemma AffordOne(gas: nat, limit: nat)
    ensures gas + Secp256k1VerifyCost <= limit <==> Affordable(gas, limit) > 0
    ensures gas + Secp256k1VerifyCost <= limit ==>
      Affordable(gas + Secp256k1VerifyCost, limit) == Affordable(gas, limit) - 1
  {
  }

  lemma {:induction false} ScanIsTotal(gas: nat, limit: nat, edCost: nat, leaves: seq<Leaf>, n: nat)
    requires LeadingEth(leaves, n)
    ensures Scan(gas, limit, edCost, leaves) == Total(gas, limit, edCost, leaves, n)
    decreases n
  {
    AffordOne(gas, limit);
    if n > 0 && gas + Secp256k1VerifyCost <= limit {
      ScanIsTotal(gas + Secp256k1VerifyCost, limit, edCost, leaves[1..], n - 1);
    }
  }

  lemma {:induction false} CountLeading(leaves: seq<Leaf>) returns (n: nat)
    ensures LeadingEth(leaves, n)
  {
    n := 0;
    if leaves != [] && leaves[0].EthKey? {
      var m := CountLeading(leaves[1..]);
      n := m + 1;
    }
  }

  /**
    Verification is accepted exactly when every selected leaf is an Ethereum key and the
    limit covers 21000 for each of them; the meter then rose by exactly that much.
   */
  lemma AcceptedIff(gas: nat, limit: nat, edCost: nat, key: Key, data: Data)
    ensures var leaves, scan := Leaves(key, data), Scan(gas, limit, edCost, Leaves(key, data));
            && (scan.outcome.Accepted? <==>
                 && (forall leaf :: leaf in leaves ==> leaf.EthKey?)
                 && (leaves == [] || gas + Secp256k1VerifyCost * |leaves| <= limit))
            && (scan.outcome.Accepted? ==> scan.gas == gas + Secp256k1VerifyCost * |leaves|)
  {
    var leaves := Leaves(key, data);
    var n := CountLeading(leaves);
    ScanIsTotal(gas, limit, edCost, leaves, n);
    if n < |leaves| {
      assert leaves[n] in leaves && !leaves[n].EthKey?;
    } else {
      forall leaf | leaf in leaves ensures leaf.EthKey? {
        var i :| 0 <= i < |leaves| && leaves[i] == leaf;
      }
    }
  }

  // ---- Over the key tree -------------------------------------------------------------------------

  /** Every key that the bits select, at any depth, is an Ethereum key with its signature. */
  ghost predicate AllEth(key: Key, data: Data)
    decreases data
  {
    match key
    case Eth => true
    case Ed25519 => false
    case Other => false
    case Multi(keys) =>
      data.MultiSignature? && forall i: nat :: i < data.bits.Count() ==>
        && i / 8 < |data.bits.elems|
        && (data.bits.GetIndex(i) ==>
             i < |keys| && Ones(data.bits, i) < |data.signatures| && AllEth(keys[i], data.signatures[Ones(data.bits, i)]))
  }

  ghost predicate OnlyEth(leaves: seq<Leaf>) {
    forall leaf :: leaf in leaves ==> leaf.EthKey?
  }

  lemma OnlyEthConcat(a: seq<Leaf>, b: seq<Leaf>)
    ensures OnlyEth(a + b) <==> OnlyEth(a) && OnlyEth(b)
  {
    if OnlyEth(a + b) {
      assert forall leaf :: leaf in a ==> leaf in a + b;
      assert forall leaf :: leaf in b ==> leaf in a + b;
    }
  }

  /** Bit `i` selects nothing but Ethereum keys. */
  ghost predicate BitEth(keys: seq<Key>, data: Data, i: nat)
    requires data.MultiSignature?
  {
    && i / 8 < |data.bits.elems|
    && (data.bits.GetIndex(i) ==>
         i < |keys| && Ones(data.bits, i) < |data.signatures| && AllEth(keys[i], data.signatures[Ones(data.bits, i)]))
  }

  lemma AllEthBits(keys: seq<Key>, data: Data)
    requires data.MultiSignature?
    ensures AllEth(Multi(keys), data) <==> forall i: nat :: i < data.bits.Count() ==> BitEth(keys, data, i)
  {
    if AllEth(Multi(keys), data) {
      forall i: nat | i < data.bits.Count()
        ensures BitEth(keys, data, i)
      {
        assert i / 8 < |data.bits.elems|;
      }
    }
    if forall i: nat :: i < data.bits.Count() ==> BitEth(keys, data, i) {
      forall i: nat | i < data.bits.Count()
        ensures i / 8 < |data.bits.elems|
        ensures data.bits.GetIndex(i) ==>
                  i < |keys| && Ones(data.bits, i) < |data.signatures| && AllEth(keys[i], data.signatures[Ones(data.bits, i)])
      {
        assert BitEth(keys, data, i);
      }
    }
  }

  lemma {:induction false} LeavesEth(key: Key, data: Data)
    ensures OnlyEth(Leaves(key, data)) <==> AllEth(key, data)
    decreases data, 1
  {
    if key.Multi? && data.MultiSignature? {
      LeavesFromEth(key.keys, data, 0);
      AllEthBits(key.keys, data);
    } else {
      assert Leaves(key, data)[0] in Leaves(key, data);
    }
  }

  lemma {:induction false} LeavesFromEth(keys: seq<Key>, data: Data, i: nat)
    requires data.MultiSignature?
    ensures OnlyEth(LeavesFrom(keys, data, i)) <==> forall j: nat :: i <= j < data.bits.Count() ==> BitEth(keys, data, j)
    decreases data, 0, data.bits.Count() - i
  {
    if i < data.bits.Count() {
      LeavesFromEth(keys, data, i + 1);
      OnlyEthConcat(LeavesAt(keys, data, i), LeavesFrom(keys, data, i + 1));
      BitLeaves(keys, data, i);
    }
  }

  lemma {:induction false} BitLeaves(keys: seq<Key>, data: Data, i: nat)
    requires data.MultiSignature?
    ensures OnlyEth(LeavesAt(keys, data, i)) <==> BitEth(keys, data, i)
    decreases data, 0, 0
  {
    if data.bits.InRange(i) && data.bits.GetIndex(i) && i < |keys| && Ones(data.bits, i) < |data.signatures| {
      LeavesEth(keys[i], data.signatures[Ones(data.bits, i)]);
    } else if !data.bits.InRange(i) || data.bits.GetIndex(i) {
      assert Missing in LeavesAt(keys, data, i);
    }
  }

  /** How many keys the bits select, at any depth. */
  ghost function Signers(key: Key, data: Data): nat { |Leaves(key, data)| }

  /** Acceptance over the key tree: Ethereum keys only, and 21000 gas for each that the bits select. */
  lemma AcceptedTree(gas: nat, limit: nat, edCost: nat, key: Key, data: Data)
    ensures var scan := Scan(gas, limit, edCost, Leaves(key, data));
            && (scan.outcome.Accepted? <==>
                 AllEth(key, data) && (Signers(key, data) == 0 || gas + 21000 * Signers(key, data) <= limit))
            && (scan.outcome.Accepted? ==> scan.gas == gas + 21000 * Signers(key, data))
  {
    AcceptedIff(gas, limit, edCost, key, data);
    LeavesEth(key, data);
  }

  /** A single key: which are accepted, which only cost, and which are refused for free. */
  lemma SingleKey(gas: nat, limit: nat, edCost: nat, data: Data)
    requires limit <= MaxUint64 && gas + 21000 <= limit && gas + edCost <= limit
    ensures Scan(gas, limit, edCost, Leaves(Eth, data)) == Scanned(gas + 21000, Accepted)
    ensures Scan(gas, limit, edCost, Leaves(Ed25519, data)) == Scanned(gas + edCost, Rejected)
    ensures Scan(gas, limit, edCost, Leaves(Other, data)) == Scanned(gas, Rejected)
    ensures forall keys :: Scan(gas, limit, edCost, Leaves(Multi(keys), Single)) == Scanned(gas, Rejected)
  {
  }

  /** A multisig of Ethereum keys has one leaf for every bit that is set. */
  lemma FlatCost(keys: seq<Key>, data: Data)
    requires data.MultiSignature? && WellFormed(Multi(keys), data) && forall k :: k in keys ==> k.Eth?
    ensures Signers(Multi(keys), data) == Ones(data.bits, if data.bits.Count() > 0 then data.bits.Count() else 0)
  {
    WellFormedIff(Multi(keys), data);
    assert Leaves(Multi(keys), data) == LeavesFrom(keys, data, 0) && Ones(data.bits, 0) == 0;
    FlatFrom(keys, data, 0);
  }

  lemma {:induction false} FlatFrom(keys: seq<Key>, data: Data, i: nat)
    requires data.MultiSignature? && Missing !in LeavesFrom(keys, data, i) && forall k :: k in keys ==> k.Eth?
    ensures i <= data.bits.Count() ==> |LeavesFrom(keys, data, i)| == Ones(data.bits, data.bits.Count()) - Ones(data.bits, i)
    decreases data.bits.Count() - i
  {
    if i < data.bits.Count() {
      var here, rest := LeavesAt(keys, data, i), LeavesFrom(keys, data, i + 1);
      assert LeavesFrom(keys, data, i) == here + rest;
      NotIn(here, rest);
      BitCost(keys, data, i);
      FlatFrom(keys, data, i + 1);
    }
  }

  lemma NotIn(a: seq<Leaf>, b: seq<Leaf>)
    requires Missing !in a + b
    ensures Missing !in a && Missing !in b
  {
    assert forall leaf :: leaf in a || leaf in b ==> leaf in a + b;
  }

  lemma BitCost(keys: seq<Key>, data: Data, i: nat)
    requires data.MultiSignature? && Missing !in LeavesAt(keys, data, i) && forall k :: k in keys ==> k.Eth?
    ensures |LeavesAt(keys, data, i)| == Ones(data.bits, i + 1) - Ones(data.bits, i)
  {
    if data.bits.InRange(i) && data.bits.GetIndex(i) && i < |keys| {
      assert keys[i] in keys;
    }
  }

  // ---- Bits ----------------------------------------------------------------------------------------

  /** Bit `i` is the (i mod 8)-th of its byte, counted from the most significant one. */
  lemma BitFromLeft(bits: BitArray, i: nat)
    requires bits.InRange(i)
    ensures bits.GetIndex(i) <==> (bits.elems[i / 8] >> (7 - i % 8)) & 1 == 1
  {
    ByteBit(bits.elems[i / 8], i % 8);
  }

  lemma ByteBit(b: bv8, k: nat)
    requires k < 8
    ensures b & ((1 as bv8) << (7 - k)) != 0 <==> (b >> (7 - k)) & 1 == 1
  {
    if k == 0 {
    } else if k == 1 {
    } else if k == 2 {
    } else if k == 3 {
    } else if k == 4 {
    } else if k == 5 {
    } else if k == 6 {
    }
  }

  ghost function Chosen(keep: nat -> bool, i: nat): set<nat> {
    set j: nat | j < i && keep(j)
  }

  lemma OneMoreChosen(keep: nat -> bool, i: nat)
    ensures |Chosen(keep, i + 1)| == |Chosen(keep, i)| + if keep(i) then 1 else 0
  {
    if keep(i) {
      assert Chosen(keep, i + 1) == Chosen(keep, i) + {i};
    } else {
      assert Chosen(keep, i + 1) == Chosen(keep, i);
    }
  }

  /** A signature's position is the number of set bits before its key. */
  lemma {:induction false} OnesIsCount(bits: BitArray, i: nat)
    ensures Ones(bits, i) == |Chosen((j: nat) => bits.InRange(j) && bits.GetIndex(j), i)|
  {
    var keep := (j: nat) => bits.InRange(j) && bits.GetIndex(j);
    if i == 0 {
      assert Chosen(keep, i) == {};
    } else {
      OnesIsCount(bits, i - 1);
      OneMoreChosen(keep, i - 1);
    }
  }

  /** An array made for `n` bits holds `n` bits, each with its byte. */
  lemma CountOfNew(n: nat, elems: seq<bv8>)
    requires n > 0 && |elems| == (n + 7) / 8
    ensures var bits := BitArray(n % 8, elems);
            bits.Count() == n && forall i: nat :: i < n ==> bits.InRange(i)
  {
  }

  // ---- Well-formed bit arrays --------------------------------------------------------------------

  /** Every bit has its byte; every set bit its key and its signature, well formed in turn. */
  ghost predicate WellFormed(key: Key, data: Data)
    decreases data
  {
    key.Multi? && data.MultiSignature? ==>
      && data.bits.Count() <= 8 * |data.bits.elems|
      && (forall i: nat :: i < data.bits.Count() && data.bits.GetIndex(i) ==>
          && i < |key.keys|
          && Ones(data.bits, i) < |data.signatures|
          && WellFormed(key.keys[i], data.signatures[Ones(data.bits, i)]))
  }

  /** Bit `i` leads to nothing that is missing. */
  ghost predicate BitFormed(keys: seq<Key>, data: Data, i: nat)
    requires data.MultiSignature?
  {
    && data.bits.InRange(i)
    && (data.bits.GetIndex(i) ==>
         && i < |keys|
         && Ones(data.bits, i) < |data.signatures|
         && WellFormed(keys[i], data.signatures[Ones(data.bits, i)]))
  }

  lemma WellFormedBits(keys: seq<Key>, data: Data)
    requires data.MultiSignature?
    ensures WellFormed(Multi(keys), data) <==> forall i: nat :: i < data.bits.Count() ==> BitFormed(keys, data, i)
  {
    if forall i: nat :: i < data.bits.Count() ==> BitFormed(keys, data, i) {
      if data.bits.Count() > 0 {
        assert BitFormed(keys, data, data.bits.Count() - 1);
      }
      forall i: nat | i < data.bits.Count() && data.bits.GetIndex(i)
        ensures i < |keys| && Ones(data.bits, i) < |data.signatures|
             && WellFormed(keys[i], data.signatures[Ones(data.bits, i)])
      {
        assert BitFormed(keys, data, i);
      }
    }
  }

  /** Indexing stays in bounds on the selected part of the tree exactly when the bit arrays are well formed. */
  lemma {:induction false} WellFormedIff(key: Key, data: Data)
    ensures WellFormed(key, data) <==> Missing !in Leaves(key, data)
    decreases data, 1
  {
    if key.Multi? && data.MultiSignature? {
      WellFormedBits(key.keys, data);
      WellFormedFrom(key.keys, data, 0);
    }
  }

  lemma {:induction false} WellFormedFrom(keys: seq<Key>, data: Data, i: nat)
    requires data.MultiSignature?
    ensures Missing !in LeavesFrom(keys, data, i) <==>
            forall j: nat :: i <= j < data.bits.Count() ==> BitFormed(keys, data, j)
    decreases data, 0, data.bits.Count() - i
  {
    if i < data.bits.Count() {
      WellFormedFrom(keys, data, i + 1);
      if data.bits.InRange(i) && data.bits.GetIndex(i) && i < |keys| && Ones(data.bits, i) < |data.signatures| {
        WellFormedIff(keys[i], data.signatures[Ones(data.bits, i)]);
      }
      assert Missing !in LeavesAt(keys, data, i) <==> BitFormed(keys, data, i);
    }
  }

  /** On well-formed trees the walk never indexes out of range, whatever the gas. */
  lemma NeverOutOfRange(gas: nat, limit: nat, edCost: nat, key: Key, data: Data)
    requires WellFormed(key, data)
    ensures !Scan(gas, limit, edCost, Leaves(key, data)).outcome.OutOfRange?
  {
    var leaves := Leaves(key, data);
    WellFormedIff(key, data);
    var n := CountLeading(leaves);
    ScanIsTotal(gas, limit, edCost, leaves, n);
    assert n < |leaves| ==> leaves[n] in leaves;
  }
}
