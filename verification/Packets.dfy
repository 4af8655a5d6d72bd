/**
  Two chains joined by one channel, under the packet rules of ICS-4 as ibc-go
  implements them (vendor/github.com/cosmos/ibc-go/v7/modules/core/04-channel/keeper).

  A chain is the sequence of its block states for this channel end, each with its block
  time.  A message carries the height of the counterparty block its proof is taken from,
  so stale proofs are part of the model: relayers may be late, may race, and may fail.
  The safety theorem is about every run of sends, transactions, closings and idle blocks.
 */
module Packets {
  import opened Types

  datatype Order = Ordered | Unordered

  /** Relayer messages; `s` is a packet sequence, `height` a counterparty block. */
  datatype Msg =
    | UpdateClient(height: nat)
    | Recv(s: nat, height: nat)
    | Timeout(s: nat, height: nat)
    | TimeoutOnClose(s: nat, height: nat)
    | Ack(s: nat, height: nat)
    | CloseConfirm(height: nat)

  /** Timeout height and timestamp of a packet; zero stands for none. */
  datatype Deadline = Deadline(height: nat, timestamp: nat)

  const NEVER := Deadline(0, 0)

  /**
    One block state of a channel end.  Packet `s` was sent with deadline `sent[s - 1]`.
    `delivered`, `acked` and `timedOut` record, in order, the packets for which the
    application callback has been run; `heights` are the counterparty blocks the light
    client knows.
   */
  datatype End = End(
    time: nat, open: bool,
    sent: seq<Deadline>, commitments: set<nat>, nextAck: nat, acked: seq<nat>, timedOut: seq<nat>,
    nextRecv: nat, receipts: set<nat>, acks: set<nat>, delivered: seq<nat>,
    heights: set<nat>)

  const NEW_END := End(0, true, [], {}, 1, [], [], 1, {}, {}, [], {0})

  function DeadlineOf(e: End, s: nat): Deadline {
    if 1 <= s <= |e.sent| then e.sent[s - 1] else NEVER
  }

  predicate Expired(d: Deadline, height: nat, time: nat) {
    (d.height != 0 && height >= d.height) || (d.timestamp != 0 && time >= d.timestamp)
  }

  /** Block `e` at this height takes no packet with this deadline any more. */
  predicate Barred(d: Deadline, e: End, height: nat) {
    Expired(d, height, e.time) || !e.open
  }

  /** The light client knows the counterparty block a proof is taken from. */
  predicate Known(e: End, peer: seq<End>, height: nat) {
    height in e.heights && height < |peer|
  }

  // ---- Handlers: None rejects the message, and with it the whole transaction ----

  function ExecRecv(order: Order, e: End, at: nat, peer: seq<End>, s: nat, h: nat): Option<End> {
    if !e.open || !Known(e, peer, h) then None
    else if s !in peer[h].commitments || Expired(DeadlineOf(peer[h], s), at, e.time) then None
    else if order.Unordered? then
      if s in e.receipts then Some(e)
      else Some(e.(receipts := e.receipts + {s}, acks := e.acks + {s}, delivered := e.delivered + [s]))
    else
      if s < e.nextRecv then Some(e)
      else if s != e.nextRecv then None
      else Some(e.(nextRecv := s + 1, acks := e.acks + {s}, delivered := e.delivered + [s]))
  }

  function ExecAck(order: Order, e: End, peer: seq<End>, s: nat, h: nat): Option<End> {
    if !e.open then None
    else if s !in e.commitments then Some(e)
    else if !Known(e, peer, h) || s !in peer[h].acks then None
    else if order.Ordered? && s != e.nextAck then None
    else Some(e.(commitments := e.commitments - {s}, acked := e.acked + [s],
                 nextAck := if order.Ordered? then s + 1 else e.nextAck))
  }

  /** The counterparty block shows that the packet has not been received. */
  predicate Absent(order: Order, r: End, s: nat) {
    if order.Ordered? then r.nextRecv <= s else s !in r.receipts
  }

  /** A timed-out packet closes an ordered channel end. */
  function TimeoutExecuted(order: Order, e: End, s: nat): End {
    e.(commitments := e.commitments - {s}, timedOut := e.timedOut + [s], open := e.open && order.Unordered?)
  }

  function ExecTimeout(order: Order, e: End, peer: seq<End>, s: nat, h: nat): Option<End> {
    if !Known(e, peer, h) || !Expired(DeadlineOf(e, s), h, peer[h].time) then None
    else if s !in e.commitments then Some(e)
    else if !e.open || !Absent(order, peer[h], s) then None
    else Some(TimeoutExecuted(order, e, s))
  }

  /** Needs no expiry and no open end of its own, but a closed counterparty. */
  function ExecTimeoutOnClose(order: Order, e: End, peer: seq<End>, s: nat, h: nat): Option<End> {
    if s !in e.commitments then Some(e)
    else if !Known(e, peer, h) || peer[h].open || !Absent(order, peer[h], s) then None
    else Some(TimeoutExecuted(order, e, s))
  }

  function ExecCloseConfirm(e: End, peer: seq<End>, h: nat): Option<End> {
    if !e.open || !Known(e, peer, h) || peer[h].open then None else Some(e.(open := false))
  }

  function Exec(order: Order, e: End, at: nat, peer: seq<End>, m: Msg): Option<End> {
    match m
    case UpdateClient(h) => if h < |peer| then Some(e.(heights := e.heights + {h})) else None
    case Recv(s, h) => ExecRecv(order, e, at, peer, s, h)
    case Ack(s, h) => ExecAck(order, e, peer, s, h)
    case Timeout(s, h) => ExecTimeout(order, e, peer, s, h)
    case TimeoutOnClose(s, h) => ExecTimeoutOnClose(order, e, peer, s, h)
    case CloseConfirm(h) => ExecCloseConfirm(e, peer, h)
  }

  /** The messages of a transaction run in order, all or nothing. */
  function ExecTx(order: Order, e: End, at: nat, peer: seq<End>, msgs: seq<Msg>): Option<End>
    decreases |msgs|
  {
    if msgs == [] then Some(e)
    else
      match Exec(order, e, at, peer, msgs[0])
      case None => None
      case Some(e') => ExecTx(order, e', at, peer, msgs[1..])
  }

  /** A transaction without messages is rejected. */
  function RunTx(order: Order, e: End, at: nat, peer: seq<End>, msgs: seq<Msg>): Option<End> {
    if msgs == [] then None else ExecTx(order, e, at, peer, msgs)
  }

  /** No packet without a deadline, and none that the light client already sees expired. */
  predicate MaySend(e: End, peer: seq<End>, d: Deadline) {
    e.open && d != NEVER && forall h :: h in e.heights && h < |peer| ==> !Expired(d, h, peer[h].time)
  }

  function SendPacket(e: End, peer: seq<End>, d: Deadline): End {
    if MaySend(e, peer, d) then e.(sent := e.sent + [d], commitments := e.commitments + {|e.sent| + 1}) else e
  }

  // ---- Runs -------------------------------------------------------------------

  /** What the next block of a chain holds. */
  datatype Action = Nothing | SendTo(deadline: Deadline) | CloseInit | Tx(msgs: seq<Msg>)

  /** A block of one chain, `delay` after the one before. */
  datatype Step = Step(onSrc: bool, delay: nat, action: Action)

  datatype Net = Net(order: Order, src: seq<End>, dst: seq<End>)

  function Last(chain: seq<End>): End
    requires chain != []
  {
    chain[|chain| - 1]
  }

  /** The state a block starts from. */
  function Begin(e: End, delay: nat): End {
    e.(time := e.time + delay)
  }

  function NextBlock(order: Order, chain: seq<End>, peer: seq<End>, delay: nat, a: Action): End
    requires chain != []
  {
    var e := Begin(Last(chain), delay);
    match a
    case Nothing => e
    case SendTo(d) => SendPacket(e, peer, d)
    case CloseInit => e.(open := false)
    case Tx(msgs) =>
      match RunTx(order, e, |chain|, peer, msgs)
      case None => e
      case Some(e') => e'
  }

  function Take(n: Net, st: Step): (n': Net)
    requires n.src != [] && n.dst != []
    ensures n'.src != [] && n'.dst != [] && n'.order == n.order && n.src <= n'.src && n.dst <= n'.dst
  {
    if st.onSrc then n.(src := n.src + [NextBlock(n.order, n.src, n.dst, st.delay, st.action)])
    else n.(dst := n.dst + [NextBlock(n.order, n.dst, n.src, st.delay, st.action)])
  }

  function RunFrom(n: Net, steps: seq<Step>): (n': Net)
    requires n.src != [] && n.dst != []
    ensures n'.src != [] && n'.dst != [] && n'.order == n.order && n.src <= n'.src && n.dst <= n'.dst
  {
    if steps == [] then n else Take(RunFrom(n, steps[..|steps| - 1]), steps[|steps| - 1])
  }

  /** A run of the channel from its opening. */
  function Run(order: Order, steps: seq<Step>): (n: Net)
    ensures n.src != [] && n.dst != [] && n.order == order
  {
    RunFrom(Net(order, [NEW_END], [NEW_END]), steps)
  }

  // ---- The invariant ------------------------------------------------------------

  ghost predicate NoDup(q: seq<nat>) {
    forall i, j :: 0 <= i < j < |q| ==> q[i] != q[j]
  }

  /** `q` is 1, 2, 3, ... without a gap. */
  ghost predicate Counts(q: seq<nat>) {
    forall i :: 0 <= i < |q| ==> q[i] == i + 1
  }

  /** Every sent packet is outstanding, acknowledged or timed out: exactly one of the three. */
  ghost predicate SenderOk(order: Order, e: End) {
    && (forall s :: s in e.commitments ==> 1 <= s <= |e.sent| && s !in e.acked && s !in e.timedOut)
    && (forall s :: s in e.acked ==> 1 <= s <= |e.sent| && s !in e.timedOut)
    && (forall s :: s in e.timedOut ==> 1 <= s <= |e.sent|)
    && (forall s :: 1 <= s <= |e.sent| ==> s in e.commitments || s in e.acked || s in e.timedOut)
    && NoDup(e.acked) && NoDup(e.timedOut)
    && (order.Ordered? ==> Counts(e.acked) && e.nextAck == |e.acked| + 1)
    && (order.Ordered? && e.open ==> e.timedOut == [])
    && (forall i :: 0 <= i < |e.sent| ==> e.sent[i] != NEVER)
  }

  ghost predicate ReceiverOk(order: Order, e: End) {
    && NoDup(e.delivered)
    && (forall s :: s in e.acks <==> s in e.delivered)
    && (order.Unordered? ==> forall s :: s in e.receipts <==> s in e.delivered)
    && (order.Ordered? ==> Counts(e.delivered) && e.nextRecv == |e.delivered| + 1)
  }

  /** A later state of the same end: logs and the client only grow, commitments never come back. */
  ghost predicate Evolves(a: End, b: End) {
    && a.sent <= b.sent && a.delivered <= b.delivered && a.acked <= b.acked && a.timedOut <= b.timedOut
    && a.heights <= b.heights && (b.open ==> a.open) && a.time <= b.time
    && (forall s :: s in b.commitments && s <= |a.sent| ==> s in a.commitments)
  }

  ghost predicate History(order: Order, chain: seq<End>) {
    && chain != []
    && (forall i {:trigger SenderOk(order, chain[i])} :: 0 <= i < |chain| ==> SenderOk(order, chain[i]) && ReceiverOk(order, chain[i]))
    && (forall i, j {:trigger Evolves(chain[i], chain[j])} :: 0 <= i <= j < |chain| ==> Evolves(chain[i], chain[j]))
  }

  /** What the current sender `s0` may rely on about the receiver's blocks. */
  ghost predicate Cross(s0: End, recv: seq<End>)
    requires recv != []
  {
    var r0 := Last(recv);
    && (forall s :: s in r0.delivered ==> 1 <= s <= |s0.sent|)
    && (forall s :: s in s0.acked ==> s in r0.delivered)
    && (forall s :: s in s0.timedOut ==> s !in r0.delivered && Barred(DeadlineOf(s0, s), r0, |recv| - 1))
    && (forall s, h {:trigger s in recv[h].delivered} ::
          s in r0.delivered && 0 <= h < |recv| && Barred(DeadlineOf(s0, s), recv[h], h) ==> s in recv[h].delivered)
    && (forall h :: h in s0.heights ==> h < |recv|)
  }

  ghost predicate Pair(order: Order, a: seq<End>, b: seq<End>) {
    History(order, a) && History(order, b) && Cross(Last(a), b) && Cross(Last(b), a)
  }

  ghost predicate Inv(n: Net) {
    Pair(n.order, n.src, n.dst)
  }

  // ---- Evolution --------------------------------------------------------------

  lemma EvolvesTrans(a: End, b: End, c: End)
    requires Evolves(a, b) && Evolves(b, c)
    ensures Evolves(a, c)
  {
  }

  lemma PrefixMember(p: seq<nat>, q: seq<nat>, s: nat)
    requires p <= q && s in p
    ensures s in q
  {
  }

  /** An end that evolved keeps the deadline of every packet it had sent. */
  lemma DeadlineStable(a: End, b: End, s: nat)
    requires Evolves(a, b) && s <= |a.sent|
    ensures DeadlineOf(a, s) == DeadlineOf(b, s)
  {
  }

  lemma NoDupAppend(q: seq<nat>, s: nat)
    requires NoDup(q) && s !in q
    ensures NoDup(q + [s])
  {
  }

  lemma CountsAppend(q: seq<nat>)
    requires Counts(q)
    ensures Counts(q + [|q| + 1])
    ensures forall s :: s in q ==> s <= |q|
  {
  }

  lemma CountsMembers(q: seq<nat>, s: nat)
    requires Counts(q)
    ensures s in q <==> 1 <= s <= |q|
  {
    if 1 <= s <= |q| {
      assert q[s - 1] == s;
    }
  }

  /** Replacing the block in progress by an evolved one. */
  lemma HistoryStep(order: Order, chain: seq<End>, e: End, e': End)
    requires History(order, chain + [e])
    requires Evolves(e, e') && SenderOk(order, e') && ReceiverOk(order, e')
    ensures History(order, chain + [e'])
  {
    var a, b := chain + [e], chain + [e'];
    forall i, j | 0 <= i <= j < |b|
      ensures Evolves(b[i], b[j])
    {
      if i < j == |chain| {
        assert Evolves(a[i], a[j]);
        EvolvesTrans(a[i], e, e');
      } else if j < |chain| {
        assert Evolves(a[i], a[j]);
      }
    }
    forall i | 0 <= i < |b|
      ensures SenderOk(order, b[i]) && ReceiverOk(order, b[i])
    {
      assert i < |chain| ==> b[i] == a[i];
    }
  }

  lemma HistoryIdle(order: Order, chain: seq<End>, delay: nat)
    requires History(order, chain)
    ensures History(order, chain + [Begin(Last(chain), delay)])
  {
    var e := Begin(Last(chain), delay);
    var b := chain + [e];
    assert Evolves(Last(chain), e) && Evolves(e, e);
    forall i, j | 0 <= i <= j < |b|
      ensures Evolves(b[i], b[j])
    {
      if j < |chain| {
        assert Evolves(chain[i], chain[j]);
      } else if i < |chain| {
        assert Evolves(chain[i], chain[|chain| - 1]);
        EvolvesTrans(chain[i], Last(chain), e);
      }
    }
    forall i | 0 <= i < |b|
      ensures SenderOk(order, b[i]) && ReceiverOk(order, b[i])
    {
      assert SenderOk(order, chain[if i < |chain| then i else |chain| - 1]);
    }
  }

  // ---- Every handler keeps the invariant ------------------------------------------

  /** What is barred stays barred. */
  lemma BarredStays(d: Deadline, a: End, i: nat, b: End, j: nat)
    requires Evolves(a, b) && i <= j && Barred(d, a, i)
    ensures Barred(d, b, j)
  {
  }

  /** The receiver side of `Cross` survives when the block in progress keeps its delivered packets. */
  lemma CrossSameDelivered(p0: End, chain: seq<End>, e: End, e': End)
    requires Cross(p0, chain + [e]) && e'.delivered == e.delivered && Evolves(e, e')
    ensures Cross(p0, chain + [e'])
  {
    var a, b := chain + [e], chain + [e'];
    assert Last(a) == e && Last(b) == e';
    forall s, h | s in e'.delivered && 0 <= h < |b| && Barred(DeadlineOf(p0, s), b[h], h)
      ensures s in b[h].delivered
    {
      if h < |chain| {
        assert s in a[h].delivered;
      }
    }
  }

  /** Replaces the block in progress in the whole invariant. */
  lemma PairStep(order: Order, chain: seq<End>, e: End, e': End, peer: seq<End>)
    requires Pair(order, chain + [e], peer)
    requires Evolves(e, e') && SenderOk(order, e') && ReceiverOk(order, e')
    requires Cross(e', peer) && Cross(Last(peer), chain + [e'])
    ensures Pair(order, chain + [e'], peer)
  {
    HistoryStep(order, chain, e, e');
    assert Last(chain + [e']) == e';
  }

  /** Replaces the block in progress by one with the same deliveries. */
  lemma QuietStep(order: Order, chain: seq<End>, e: End, e': End, peer: seq<End>)
    requires Pair(order, chain + [e], peer) && e'.delivered == e.delivered
    requires Evolves(e, e') && SenderOk(order, e') && ReceiverOk(order, e') && Cross(e', peer)
    ensures Pair(order, chain + [e'], peer)
  {
    CrossSameDelivered(Last(peer), chain, e, e');
    PairStep(order, chain, e, e', peer);
  }

  /** What the invariant says about the block in progress. */
  lemma BlockInProgress(order: Order, chain: seq<End>, e: End, peer: seq<End>)
    requires Pair(order, chain + [e], peer)
    ensures SenderOk(order, e) && ReceiverOk(order, e) && Cross(e, peer)
  {
    var a := chain + [e];
    assert a[|chain|] == e && Last(a) == e;
    assert SenderOk(order, a[|chain|]);
  }

  /** What the invariant says about an old block of the peer. */
  lemma OldBlock(order: Order, chain: seq<End>, e: End, peer: seq<End>, h: nat)
    requires Pair(order, chain + [e], peer) && h < |peer|
    ensures SenderOk(order, peer[h]) && ReceiverOk(order, peer[h]) && Evolves(peer[h], Last(peer))
  {
    assert SenderOk(order, peer[h]) && Evolves(peer[h], peer[|peer| - 1]);
  }

  lemma UpdateKeeps(order: Order, chain: seq<End>, e: End, peer: seq<End>, h: nat)
    requires Pair(order, chain + [e], peer) && h < |peer|
    ensures Pair(order, chain + [e.(heights := e.heights + {h})], peer)
  {
    BlockInProgress(order, chain, e, peer);
    QuietStep(order, chain, e, e.(heights := e.heights + {h}), peer);
  }

  lemma CloseKeeps(order: Order, chain: seq<End>, e: End, peer: seq<End>)
    requires Pair(order, chain + [e], peer)
    ensures Pair(order, chain + [e.(open := false)], peer)
  {
    BlockInProgress(order, chain, e, peer);
    QuietStep(order, chain, e, e.(open := false), peer);
  }

  lemma RecvReceiverOk(order: Order, e: End, at: nat, peer: seq<End>, s: nat, h: nat)
    requires SenderOk(order, e) && ReceiverOk(order, e)
    requires ExecRecv(order, e, at, peer, s, h).Some?
    ensures var e' := ExecRecv(order, e, at, peer, s, h).value;
            Evolves(e, e') && SenderOk(order, e') && ReceiverOk(order, e')
  {
    if order.Ordered? {
      CountsAppend(e.delivered);
    }
    if (order.Unordered? && s !in e.receipts) || (order.Ordered? && s == e.nextRecv) {
      assert s !in e.delivered;
      NoDupAppend(e.delivered, s);
    }
  }

  /** A packet that can be received now was not barred before. */
  lemma NotBarredBefore(order: Order, chain: seq<End>, e: End, d: Deadline, k: nat)
    requires History(order, chain + [e]) && k < |chain| && !Barred(d, e, |chain|)
    ensures !Barred(d, chain[k], k)
  {
    var a := chain + [e];
    assert Evolves(a[k], a[|chain|]);
    if Barred(d, chain[k], k) {
      BarredStays(d, chain[k], k, e, |chain|);
    }
  }

  lemma RecvCross(order: Order, chain: seq<End>, e: End, peer: seq<End>, s: nat, h: nat)
    requires Pair(order, chain + [e], peer)
    requires ExecRecv(order, e, |chain|, peer, s, h).Some?
    ensures Cross(Last(peer), chain + [ExecRecv(order, e, |chain|, peer, s, h).value])
  {
    var e' := ExecRecv(order, e, |chain|, peer, s, h).value;
    var p0 := Last(peer);
    var a, b := chain + [e], chain + [e'];
    assert Last(a) == e && Last(b) == e';
    OldBlock(order, chain, e, peer, h);
    DeadlineStable(peer[h], p0, s);
    assert !Barred(DeadlineOf(p0, s), e, |chain|);
    assert forall t :: t in e'.delivered ==> t in e.delivered || t == s;
    forall t, k | t in e'.delivered && 0 <= k < |b| && Barred(DeadlineOf(p0, t), b[k], k)
      ensures t in b[k].delivered
    {
      if k < |chain| {
        if t == s {
          NotBarredBefore(order, chain, e, DeadlineOf(p0, s), k);
        }
        assert t in a[k].delivered;
      }
    }
  }

  lemma RecvKeeps(order: Order, chain: seq<End>, e: End, peer: seq<End>, s: nat, h: nat)
    requires Pair(order, chain + [e], peer)
    requires ExecRecv(order, e, |chain|, peer, s, h).Some?
    ensures Pair(order, chain + [ExecRecv(order, e, |chain|, peer, s, h).value], peer)
  {
    var e' := ExecRecv(order, e, |chain|, peer, s, h).value;
    BlockInProgress(order, chain, e, peer);
    RecvReceiverOk(order, e, |chain|, peer, s, h);
    RecvCross(order, chain, e, peer, s, h);
    PairStep(order, chain, e, e', peer);
  }

  lemma AckSenderOk(order: Order, e: End, peer: seq<End>, s: nat, h: nat)
    requires SenderOk(order, e) && s in e.commitments
    requires ExecAck(order, e, peer, s, h).Some?
    ensures SenderOk(order, ExecAck(order, e, peer, s, h).value)
  {
    NoDupAppend(e.acked, s);
    if order.Ordered? {
      CountsAppend(e.acked);
    }
  }

  lemma AckKeeps(order: Order, chain: seq<End>, e: End, peer: seq<End>, s: nat, h: nat)
    requires Pair(order, chain + [e], peer)
    requires ExecAck(order, e, peer, s, h).Some?
    ensures Pair(order, chain + [ExecAck(order, e, peer, s, h).value], peer)
  {
    var e' := ExecAck(order, e, peer, s, h).value;
    if s in e.commitments {
      BlockInProgress(order, chain, e, peer);
      OldBlock(order, chain, e, peer, h);
      AckSenderOk(order, e, peer, s, h);
      PrefixMember(peer[h].delivered, Last(peer).delivered, s);
      assert Cross(e', peer);
      QuietStep(order, chain, e, e', peer);
    }
  }

  lemma TimeoutSenderOk(order: Order, e: End, s: nat)
    requires SenderOk(order, e) && s in e.commitments
    ensures SenderOk(order, TimeoutExecuted(order, e, s))
  {
    NoDupAppend(e.timedOut, s);
  }

  lemma AbsentIsUndelivered(order: Order, r: End, s: nat)
    requires ReceiverOk(order, r) && s >= 1
    ensures Absent(order, r, s) <==> s !in r.delivered
  {
    if order.Ordered? {
      CountsMembers(r.delivered, s);
    }
  }

  /** Both ways of timing out: block `h` of the peer lacks the packet and is barred to it. */
  lemma TimeoutExecutedKeeps(order: Order, chain: seq<End>, e: End, peer: seq<End>, s: nat, h: nat)
    requires Pair(order, chain + [e], peer) && s in e.commitments && h < |peer|
    requires Absent(order, peer[h], s) && Barred(DeadlineOf(e, s), peer[h], h)
    ensures Pair(order, chain + [TimeoutExecuted(order, e, s)], peer)
  {
    var e' := TimeoutExecuted(order, e, s);
    BlockInProgress(order, chain, e, peer);
    OldBlock(order, chain, e, peer, h);
    AbsentIsUndelivered(order, peer[h], s);
    BarredStays(DeadlineOf(e, s), peer[h], h, Last(peer), |peer| - 1);
    assert s !in Last(peer).delivered;
    TimeoutSenderOk(order, e, s);
    assert Cross(e', peer);
    QuietStep(order, chain, e, e', peer);
  }

  lemma TimeoutKeeps(order: Order, chain: seq<End>, e: End, peer: seq<End>, s: nat, h: nat)
    requires Pair(order, chain + [e], peer)
    requires ExecTimeout(order, e, peer, s, h).Some?
    ensures Pair(order, chain + [ExecTimeout(order, e, peer, s, h).value], peer)
  {
    if s in e.commitments {
      TimeoutExecutedKeeps(order, chain, e, peer, s, h);
    }
  }

  lemma TimeoutOnCloseKeeps(order: Order, chain: seq<End>, e: End, peer: seq<End>, s: nat, h: nat)
    requires Pair(order, chain + [e], peer)
    requires ExecTimeoutOnClose(order, e, peer, s, h).Some?
    ensures Pair(order, chain + [ExecTimeoutOnClose(order, e, peer, s, h).value], peer)
  {
    if s in e.commitments {
      TimeoutExecutedKeeps(order, chain, e, peer, s, h);
    }
  }

  lemma ExecKeeps(order: Order, chain: seq<End>, e: End, peer: seq<End>, m: Msg)
    requires Pair(order, chain + [e], peer)
    requires Exec(order, e, |chain|, peer, m).Some?
    ensures Pair(order, chain + [Exec(order, e, |chain|, peer, m).value], peer)
  {
    match m
    case UpdateClient(h) => UpdateKeeps(order, chain, e, peer, h);
    case Recv(s, h) => RecvKeeps(order, chain, e, peer, s, h);
    case Ack(s, h) => AckKeeps(order, chain, e, peer, s, h);
    case Timeout(s, h) => TimeoutKeeps(order, chain, e, peer, s, h);
    case TimeoutOnClose(s, h) => TimeoutOnCloseKeeps(order, chain, e, peer, s, h);
    case CloseConfirm(h) => CloseKeeps(order, chain, e, peer);
  }

  lemma {:induction false} ExecTxKeeps(order: Order, chain: seq<End>, e: End, peer: seq<End>, msgs: seq<Msg>)
    requires Pair(order, chain + [e], peer)
    requires ExecTx(order, e, |chain|, peer, msgs).Some?
    ensures Pair(order, chain + [ExecTx(order, e, |chain|, peer, msgs).value], peer)
    decreases |msgs|
  {
    if msgs != [] {
      ExecKeeps(order, chain, e, peer, msgs[0]);
      ExecTxKeeps(order, chain, Exec(order, e, |chain|, peer, msgs[0]).value, peer, msgs[1..]);
    }
  }

  lemma SendKeeps(order: Order, chain: seq<End>, e: End, peer: seq<End>, d: Deadline)
    requires Pair(order, chain + [e], peer)
    ensures Pair(order, chain + [SendPacket(e, peer, d)], peer)
  {
    var e' := SendPacket(e, peer, d);
    BlockInProgress(order, chain, e, peer);
    assert SenderOk(order, e') && Evolves(e, e');
    forall s: nat | s <= |e.sent|
      ensures DeadlineOf(e', s) == DeadlineOf(e, s)
    {
      DeadlineStable(e, e', s);
    }
    assert Cross(e', peer);
    QuietStep(order, chain, e, e', peer);
  }

  lemma CrossIdle(order: Order, p0: End, chain: seq<End>, delay: nat)
    requires History(order, chain) && Cross(p0, chain)
    ensures Cross(p0, chain + [Begin(Last(chain), delay)])
  {
    var e := Begin(Last(chain), delay);
    var b := chain + [e];
    assert Last(b) == e;
    forall s, h | s in e.delivered && 0 <= h < |b| && Barred(DeadlineOf(p0, s), b[h], h)
      ensures s in b[h].delivered
    {
      if h < |chain| {
        assert s in chain[h].delivered;
      }
    }
  }

  lemma IdleKeeps(order: Order, chain: seq<End>, peer: seq<End>, delay: nat)
    requires Pair(order, chain, peer)
    ensures Pair(order, chain + [Begin(Last(chain), delay)], peer)
  {
    HistoryIdle(order, chain, delay);
    CrossIdle(order, Last(peer), chain, delay);
    assert Last(chain + [Begin(Last(chain), delay)]) == Begin(Last(chain), delay);
  }

  lemma BlockKeeps(order: Order, chain: seq<End>, peer: seq<End>, delay: nat, a: Action)
    requires Pair(order, chain, peer)
    ensures Pair(order, chain + [NextBlock(order, chain, peer, delay, a)], peer)
  {
    var e := Begin(Last(chain), delay);
    IdleKeeps(order, chain, peer, delay);
    match a
    case Nothing =>
    case SendTo(d) => SendKeeps(order, chain, e, peer, d);
    case CloseInit => CloseKeeps(order, chain, e, peer);
    case Tx(msgs) =>
      if RunTx(order, e, |chain|, peer, msgs).Some? {
        ExecTxKeeps(order, chain, e, peer, msgs);
      }
  }

  lemma InitialPair(order: Order)
    ensures Pair(order, [NEW_END], [NEW_END])
  {
    assert SenderOk(order, NEW_END) && ReceiverOk(order, NEW_END) && Evolves(NEW_END, NEW_END);
    var chain := [NEW_END];
    assert forall i :: 0 <= i < |chain| ==> chain[i] == NEW_END;
    assert Cross(NEW_END, chain);
  }

  lemma {:induction false} StepsKeep(n: Net, steps: seq<Step>)
    requires Inv(n)
    ensures Inv(RunFrom(n, steps))
  {
    if steps != [] {
      var m := RunFrom(n, steps[..|steps| - 1]);
      var st := steps[|steps| - 1];
      StepsKeep(n, steps[..|steps| - 1]);
      if st.onSrc {
        BlockKeeps(m.order, m.src, m.dst, st.delay, st.action);
      } else {
        BlockKeeps(m.order, m.dst, m.src, st.delay, st.action);
      }
    }
  }

  lemma RunKeeps(order: Order, steps: seq<Step>)
    ensures Inv(Run(order, steps))
  {
    InitialPair(order);
    StepsKeep(Net(order, [NEW_END], [NEW_END]), steps);
  }

  // ---- Safety ---------------------------------------------------------------------

  /** One direction of the channel, at the end of a run. */
  ghost predicate Safe(order: Order, sender: End, receiver: End) {
    // delivered at most once, and only what was sent
    && NoDup(receiver.delivered)
    && (forall s :: s in receiver.delivered ==> 1 <= s <= |sender.sent|)
    // an ordered channel delivers 1, 2, 3, ... without a gap
    && (order.Ordered? ==> Counts(receiver.delivered))
    // acknowledged only after delivery, timed out only without it, never both, never twice
    && NoDup(sender.acked) && NoDup(sender.timedOut)
    && (forall s :: s in sender.acked ==> s in receiver.delivered)
    && (forall s :: s in sender.timedOut ==> s !in receiver.delivered)
    // conservation: what is no longer outstanding was acknowledged or timed out
    && (forall s :: 1 <= s <= |sender.sent| ==>
          (s in sender.commitments <==> s !in sender.acked && s !in sender.timedOut))
  }

  lemma InvIsSafe(n: Net)
    requires Inv(n)
    ensures Safe(n.order, Last(n.src), Last(n.dst)) && Safe(n.order, Last(n.dst), Last(n.src))
  {
    LastOk(n.order, n.src);
    LastOk(n.order, n.dst);
  }

  /** Whatever relayers do, in whatever order and with however stale proofs. */
  lemma EveryRunIsSafe(order: Order, steps: seq<Step>)
    ensures var n := Run(order, steps);
            Safe(order, Last(n.src), Last(n.dst)) && Safe(order, Last(n.dst), Last(n.src))
  {
    RunKeeps(order, steps);
    InvIsSafe(Run(order, steps));
  }

  lemma LastOk(order: Order, chain: seq<End>)
    requires History(order, chain)
    ensures SenderOk(order, Last(chain)) && ReceiverOk(order, Last(chain))
  {
    assert SenderOk(order, chain[|chain| - 1]);
  }
}
