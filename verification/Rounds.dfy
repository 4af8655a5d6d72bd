/**
  The two phases of a worker iteration over two chains, packets and acknowledgements.
  Either chain may produce idle blocks at any point: before the queries, before the
  messages are built, and before every batch.
 */
module Rounds {
  import opened Packets
  import opened Batching
  import opened Relay

  // ---- The queues of one phase -------------------------------------------------------

  /**
    `RelayPackets`: the queue for `self` holds timeouts for its own packets
    (`mine`) and receives for the packets of its peer (`theirs`), all proved at the
    peer's latest height.  The source queue lists timeouts first, the destination
    queue receives first.
   */
  function PacketBody(self: seq<End>, peer: seq<End>, mine: seq<nat>, theirs: seq<nat>, timeoutsFirst: bool): seq<Msg>
    requires self != [] && peer != []
  {
    var h := |peer| - 1;
    var timeouts := Timeouts(Dead(Last(self), Tip(peer), mine), h);
    var recvs := Recvs(Live(Last(peer), Tip(self), theirs), h);
    if timeoutsFirst then timeouts + recvs else recvs + timeouts
  }

  /** The queue with its client update. */
  function PacketQueue(self: seq<End>, peer: seq<End>, mine: seq<nat>, theirs: seq<nat>, timeoutsFirst: bool): seq<Msg>
    requires self != [] && peer != []
  {
    WithUpdate(PacketBody(self, peer, mine, theirs, timeoutsFirst), |peer| - 1)
  }

  /** `RelayAcknowledgements`: the queue for the chain that is owed the acks `q` of `peer`. */
  function AckMsgs(peer: seq<End>, q: seq<nat>): seq<Msg>
    requires peer != []
  {
    WithUpdate(Acks(q, |peer| - 1), |peer| - 1)
  }

  lemma UpdateFirst(order: Order, e: End, at: nat, peer: seq<End>, h: nat, queue: seq<Msg>)
    requires h < |peer| && queue != []
    ensures ExecTx(order, e, at, peer, WithUpdate(queue, h))
         == ExecTx(order, e.(heights := e.heights + {h}), at, peer, queue)
  {
  }

  // ---- What the environment decides --------------------------------------------------

  /** Idle blocks on either chain. */
  datatype Pause = Pause(src: seq<nat>, dst: seq<nat>)

  function Rest(n: Net, p: Pause): (n': Net)
    requires n.src != [] && n.dst != []
    ensures n'.src != [] && n'.dst != [] && n'.order == n.order
  {
    Net(n.order, Wait(n.src, p.src), Wait(n.dst, p.dst))
  }

  /**
    One phase: idle blocks, then the queries with the order in which the stores list, idle
    blocks again, then the messages are built, cut into batches and taken into blocks.
   */
  datatype Plan = Plan(
    before: Pause, srcList: seq<nat>, dstList: seq<nat>,
    between: Pause, srcLog: seq<seq<Message<Msg>>>, dstLog: seq<seq<Message<Msg>>>,
    srcSlots: nat -> Slot, dstSlots: nat -> Slot)

  /** The chains as the queries see them. */
  function Asked(n: Net, p: Plan): (m: Net)
    requires n.src != [] && n.dst != []
    ensures m.src != [] && m.dst != [] && m.order == n.order
  {
    Rest(n, p.before)
  }

  /** The chains when the messages are built. */
  function Built(n: Net, p: Plan): (m: Net)
    requires n.src != [] && n.dst != []
    ensures m.src != [] && m.dst != [] && m.order == n.order
  {
    Rest(Asked(n, p), p.between)
  }

  /** The packets of the source that the queries find pending. */
  function Mine(n: Net, p: Plan): seq<nat>
    requires n.src != [] && n.dst != []
  {
    Pending(n.order, Last(Asked(n, p).dst), p.srcList)
  }

  function Theirs(n: Net, p: Plan): seq<nat>
    requires n.src != [] && n.dst != []
  {
    Pending(n.order, Last(Asked(n, p).src), p.dstList)
  }

  /** The acknowledgements the source is owed; the listings are now those of written acks. */
  function OwedSrc(n: Net, p: Plan): seq<nat>
    requires n.src != [] && n.dst != []
  {
    PendingAcks(Last(Asked(n, p).src), p.dstList)
  }

  function OwedDst(n: Net, p: Plan): seq<nat>
    requires n.src != [] && n.dst != []
  {
    PendingAcks(Last(Asked(n, p).dst), p.srcList)
  }

  ghost predicate PacketPlan(n: Net, p: Plan)
    requires n.src != [] && n.dst != []
  {
    var q, m := Asked(n, p), Built(n, p);
    && Lists(p.srcList, Last(q.src).commitments) && Lists(p.dstList, Last(q.dst).commitments)
    && Bodies(Flatten(p.srcLog)) == PacketQueue(m.src, m.dst, Mine(n, p), Theirs(n, p), true)
    && Bodies(Flatten(p.dstLog)) == PacketQueue(m.dst, m.src, Theirs(n, p), Mine(n, p), false)
  }

  ghost predicate AckPlan(n: Net, p: Plan)
    requires n.src != [] && n.dst != []
  {
    var q, m := Asked(n, p), Built(n, p);
    && Lists(p.srcList, Last(q.src).acks) && Lists(p.dstList, Last(q.dst).acks)
    && Bodies(Flatten(p.srcLog)) == AckMsgs(m.dst, OwedSrc(n, p))
    && Bodies(Flatten(p.dstLog)) == AckMsgs(m.src, OwedDst(n, p))
  }

  function SrcSent(n: Net, p: Plan): (r: Sent)
    requires n.src != [] && n.dst != []
    ensures r.chain != [] && |r.accepted| == |p.srcLog|
  {
    SendLog(n.order, Built(n, p).src, Built(n, p).dst, p.srcLog, p.srcSlots)
  }

  function DstSent(n: Net, p: Plan): (r: Sent)
    requires n.src != [] && n.dst != []
    ensures r.chain != [] && |r.accepted| == |p.dstLog|
  {
    SendLog(n.order, Built(n, p).dst, Built(n, p).src, p.dstLog, p.dstSlots)
  }

  /** `Send`: both queues go out concurrently. */
  function After(n: Net, p: Plan): (n': Net)
    requires n.src != [] && n.dst != []
    ensures n'.src != [] && n'.dst != [] && n'.order == n.order
  {
    Net(n.order, SrcSent(n, p).chain, DstSent(n, p).chain)
  }

  /** Neither chain rejected a batch, so `Send` reports no error. */
  predicate NoRejection(n: Net, p: Plan)
    requires n.src != [] && n.dst != []
  {
    AllAccepted(SrcSent(n, p).accepted) && AllAccepted(DstSent(n, p).accepted)
  }

  /** Only empty batches were rejected, on either chain. */
  ghost predicate OnlyEmptyRejected(n: Net, p: Plan)
    requires n.src != [] && n.dst != []
  {
    AcceptedUnlessEmpty(p.srcLog, SrcSent(n, p).accepted) && AcceptedUnlessEmpty(p.dstLog, DstSent(n, p).accepted)
  }

  // ---- Idle blocks change nothing but the time ----------------------------------------

  /** The same end, later. */
  predicate SameEnd(e: End, e': End) {
    e' == e.(time := e'.time) && e.time <= e'.time
  }

  lemma BuiltEnds(n: Net, p: Plan)
    requires n.src != [] && n.dst != []
    ensures SameEnd(Last(n.src), Last(Asked(n, p).src)) && SameEnd(Last(n.dst), Last(Asked(n, p).dst))
    ensures SameEnd(Last(n.src), Last(Built(n, p).src)) && SameEnd(Last(n.dst), Last(Built(n, p).dst))
  {
  }

  lemma PairSwap(order: Order, a: seq<End>, b: seq<End>)
    requires Pair(order, a, b)
    ensures Pair(order, b, a)
  {
  }

  lemma {:induction false} WaitKeeps(order: Order, chain: seq<End>, peer: seq<End>, idle: seq<nat>)
    requires Pair(order, chain, peer)
    ensures Pair(order, Wait(chain, idle), peer)
  {
    if idle != [] {
      WaitKeeps(order, chain, peer, idle[..|idle| - 1]);
      IdleKeeps(order, Wait(chain, idle[..|idle| - 1]), peer, idle[|idle| - 1]);
    }
  }

  lemma RestKeeps(n: Net, p: Pause)
    requires Inv(n)
    ensures Inv(Rest(n, p))
  {
    WaitKeeps(n.order, n.src, n.dst, p.src);
    PairSwap(n.order, Wait(n.src, p.src), n.dst);
    WaitKeeps(n.order, n.dst, Wait(n.src, p.src), p.dst);
    PairSwap(n.order, Wait(n.dst, p.dst), Wait(n.src, p.src));
  }

  lemma BuiltKeeps(n: Net, p: Plan)
    requires Inv(n)
    ensures Inv(Asked(n, p)) && Inv(Built(n, p))
  {
    RestKeeps(n, p.before);
    RestKeeps(Asked(n, p), p.between);
  }

  // ---- Concurrent sends -----------------------------------------------------------------

  /** Every proof is taken from one of the first `bound` blocks of the peer. */
  ghost predicate InReach(msgs: seq<Msg>, bound: nat) {
    forall i :: 0 <= i < |msgs| ==> msgs[i].height < bound
  }

  lemma {:induction false} ExecStable(order: Order, e: End, at: nat, peer: seq<End>, peer': seq<End>, msgs: seq<Msg>)
    requires peer <= peer' && InReach(msgs, |peer|)
    ensures ExecTx(order, e, at, peer', msgs) == ExecTx(order, e, at, peer, msgs)
    decreases |msgs|
  {
    if msgs != [] {
      assert Exec(order, e, at, peer', msgs[0]) == Exec(order, e, at, peer, msgs[0]);
      if Exec(order, e, at, peer, msgs[0]).Some? {
        ExecStable(order, Exec(order, e, at, peer, msgs[0]).value, at, peer, peer', msgs[1..]);
      }
    }
  }

  lemma ReachConcat(a: seq<Msg>, b: seq<Msg>, bound: nat)
    ensures InReach(a + b, bound) <==> InReach(a, bound) && InReach(b, bound)
  {
    if InReach(a + b, bound) {
      assert forall i :: 0 <= i < |a| ==> a[i] == (a + b)[i];
      assert forall i :: 0 <= i < |b| ==> b[i] == (a + b)[|a| + i];
    }
  }

  /** Blocks the peer produces meanwhile change nothing, rejections included: every interleaving ends alike. */
  lemma {:induction false} SendsCommute(order: Order, chain: seq<End>, peer: seq<End>, peer': seq<End>,
                                        log: seq<seq<Message<Msg>>>, slots: nat -> Slot)
    requires chain != [] && peer <= peer' && InReach(Bodies(Flatten(log)), |peer|)
    ensures SendLog(order, chain, peer', log, slots) == SendLog(order, chain, peer, log, slots)
  {
    if log != [] {
      var front, msgs := log[..|log| - 1], Bodies(log[|log| - 1]);
      BodiesConcat(Flatten(front), log[|log| - 1]);
      ReachConcat(Bodies(Flatten(front)), msgs, |peer|);
      SendsCommute(order, chain, peer, peer', front, slots);
      var slot := slots(|log| - 1);
      var c := Wait(SendLog(order, chain, peer, front, slots).chain, slot.idle);
      ExecStable(order, Begin(Last(c), slot.delay), |c|, peer, peer', msgs);
    }
  }

  lemma {:induction false} BatchesKeep(order: Order, chain: seq<End>, peer: seq<End>, log: seq<seq<Message<Msg>>>,
                                       slots: nat -> Slot)
    requires Pair(order, chain, peer)
    ensures Pair(order, SendLog(order, chain, peer, log, slots).chain, peer)
  {
    if log != [] {
      var front, slot := log[..|log| - 1], slots(|log| - 1);
      BatchesKeep(order, chain, peer, front, slots);
      var before := SendLog(order, chain, peer, front, slots).chain;
      WaitKeeps(order, before, peer, slot.idle);
      BlockKeeps(order, Wait(before, slot.idle), peer, slot.delay, Tx(Bodies(log[|log| - 1])));
    }
  }

  lemma SendKeepsInv(n: Net, p: Plan)
    requires Inv(n) && InReach(Bodies(Flatten(p.dstLog)), |Built(n, p).src|)
    ensures Inv(After(n, p))
  {
    var m, src := Built(n, p), SrcSent(n, p).chain;
    BuiltKeeps(n, p);
    BatchesKeep(n.order, m.src, m.dst, p.srcLog, p.srcSlots);
    PairSwap(n.order, src, m.dst);
    SendsCommute(n.order, m.dst, m.src, src, p.dstLog, p.dstSlots);
    BatchesKeep(n.order, m.dst, src, p.dstLog, p.dstSlots);
    PairSwap(n.order, DstSent(n, p).chain, src);
  }

  lemma PacketsInReach(self: seq<End>, peer: seq<End>, mine: seq<nat>, theirs: seq<nat>, first: bool)
    requires self != [] && peer != []
    ensures InReach(PacketQueue(self, peer, mine, theirs, first), |peer|)
  {
    var h := |peer| - 1;
    var t, r := Timeouts(Dead(Last(self), Tip(peer), mine), h), Recvs(Live(Last(peer), Tip(self), theirs), h);
    ReachConcat(t, r, |peer|);
    ReachConcat(r, t, |peer|);
    ReachConcat([UpdateClient(h)], PacketBody(self, peer, mine, theirs, first), |peer|);
  }

  lemma AcksInReach(peer: seq<End>, q: seq<nat>)
    requires peer != []
    ensures InReach(AckMsgs(peer, q), |peer|)
  {
  }

  /** A phase that broke off before it sent anything. */
  predicate Idle(p: Plan) {
    p.srcLog == [] && p.dstLog == []
  }

  /** A phase keeps the invariant, whatever is accepted. */
  lemma PhaseKeepsInv(n: Net, p: Plan)
    requires Inv(n) && (PacketPlan(n, p) || AckPlan(n, p) || Idle(p))
    ensures Inv(After(n, p))
  {
    var m := Built(n, p);
    if PacketPlan(n, p) {
      PacketsInReach(m.dst, m.src, Theirs(n, p), Mine(n, p), false);
    } else if AckPlan(n, p) {
      AcksInReach(m.src, OwedDst(n, p));
    } else {
      assert Bodies(Flatten(p.dstLog)) == [];
    }
    SendKeepsInv(n, p);
  }
}
