/**
  Packet phases on an ordered channel: the next packet of either direction is delivered if and
  only if it is not given up and its batch is in time.
 */
module OrderedRounds {
  import opened Packets
  import opened Batching
  import opened Relay
  import opened Rounds
  import opened PacketRounds
  import opened PacketPhases

  // ---- The backlog --------------------------------------------------------------------

  /** How many packets of `sender` the receiver has not seen yet. */
  function Backlog(sender: End, receiver: End): int {
    |sender.sent| - |receiver.delivered|
  }

  /** While the sender's end is open, what is outstanding and unreceived is exactly what comes next. */
  lemma BacklogIsNext(a: seq<End>, b: seq<End>, s: nat)
    requires Pair(Ordered, a, b) && Last(a).open
    ensures s in Last(a).commitments && s >= Last(b).nextRecv
       <==> Last(b).nextRecv <= s <= |Last(a).sent|
    ensures Last(b).nextRecv == |Last(b).delivered| + 1 <= |Last(a).sent| + 1
  {
    var e, r := Last(a), Last(b);
    LastOk(Ordered, a);
    LastOk(Ordered, b);
    CountsMembers(r.delivered, s);
    if |r.delivered| > 0 {
      CountsMembers(r.delivered, |r.delivered|);
    }
  }

  /** The next packet `receiver` expects, if `sender` has sent it. */
  function Next(sender: End, receiver: End): seq<nat> {
    if Backlog(sender, receiver) > 0 then [|receiver.delivered| + 1] else []
  }

  /** The queries pick the receiver's next expected packet, if there is one, and nothing else. */
  lemma OrderedPick(a: seq<End>, b: seq<End>, listing: seq<nat>)
    requires Pair(Ordered, a, b) && Last(a).open && Lists(listing, Last(a).commitments)
    ensures Pending(Ordered, Last(b), listing) == Next(Last(a), Last(b))
  {
    var n := Last(b).nextRecv;
    var keep := (s: nat) => IsUnreceived(Ordered, Last(b), s);
    FilterMembers(listing, keep, n);
    BacklogIsNext(a, b, n);
    assert ForkJoin.Unreceived(PacketReplies(Ordered, Last(b), listing)) == Filter(listing, keep);
  }

  // ---- One packet phase -------------------------------------------------------------------

  /** An ordered channel, open at both ends. */
  ghost predicate OpenOrdered(n: Net) {
    Inv(n) && n.order.Ordered? && Last(n.src).open && Last(n.dst).open
  }

  lemma OrderedPicks(n: Net, p: Plan)
    requires OpenOrdered(n) && PacketPlan(n, p)
    ensures Mine(n, p) == Next(Last(n.src), Last(n.dst)) && Theirs(n, p) == Next(Last(n.dst), Last(n.src))
  {
    var q := Asked(n, p);
    BuiltEnds(n, p);
    BuiltKeeps(n, p);
    PairSwap(n.order, q.src, q.dst);
    OrderedPick(q.src, q.dst, p.srcList);
    OrderedPick(q.dst, q.src, p.dstList);
  }

  /**
    The packet phase, whatever expires on the way: the messages of the accepted batches are
    carried out, and only empty batches are rejected if and only if every batch is in time and
    the source has not both a packet to time out and one to receive.
   */
  lemma OrderedPackets(n: Net, p: Plan)
    requires OpenOrdered(n) && PacketPlan(n, p)
    ensures Inv(After(n, p))
    ensures Carried(Ordered, Last(n.src), Last(After(n, p).src), SrcKept(n, p))
    ensures Carried(Ordered, Last(n.dst), Last(After(n, p).dst), DstKept(n, p))
    ensures OnlyEmptyRejected(n, p) <==> PhaseInTime(n, p) && (DeadMine(n, p) == [] || LiveTheirs(n, p) == [])
  {
    PhaseCarries(n, p);
    PhaseJudged(n, p);
    PhaseKeepsInv(n, p);
  }

  /** No packet is given up, and every batch is in time. */
  ghost predicate OnTime(n: Net, p: Plan)
    requires n.src != [] && n.dst != []
  {
    DeadMine(n, p) == [] && DeadTheirs(n, p) == [] && PhaseInTime(n, p)
  }

  /** The next packet of either direction is delivered. */
  ghost predicate BothDeliver(n: Net, p: Plan)
    requires n.src != [] && n.dst != []
  {
    RecvsIn(DstKept(n, p)) == Next(Last(n.src), Last(n.dst)) && RecvsIn(SrcKept(n, p)) == Next(Last(n.dst), Last(n.src))
  }

  lemma {:induction false} NoneDead(sender: End, seen: Moment, q: seq<nat>)
    requires Dead(sender, seen, q) == []
    ensures Live(sender, seen, q) == q
  {
    if q != [] {
      NoneDead(sender, seen, q[..|q| - 1]);
    }
  }

  lemma Lost(live: seq<nat>, kept: seq<Msg>, q: seq<nat>)
    requires Loses(live, kept) && forall s :: s in live ==> s in q
    ensures RecvsIn(kept) != q
  {
    var s :| s in live && s !in RecvsIn(kept);
  }

  /** A packet that is given up is not delivered. */
  lemma GivenUp(sender: End, seen: Moment, q: seq<nat>, kept: seq<Msg>)
    requires NoDup(q) && Dead(sender, seen, q) != [] && forall s :: s in RecvsIn(kept) ==> s in Live(sender, seen, q)
    ensures RecvsIn(kept) != q
  {
    LiveDeadMembers(sender, seen, q);
    var s := AnyMember(Dead(sender, seen, q));
    assert s in q && s !in Live(sender, seen, q);
  }

  /** Both directions make progress if and only if the phase is on time. */
  lemma DeliverIff(n: Net, p: Plan)
    requires OpenOrdered(n) && PacketPlan(n, p)
    ensures BothDeliver(n, p) <==> OnTime(n, p)
    ensures OnTime(n, p) ==> TimeoutsIn(SrcKept(n, p)) == [] && TimeoutsIn(DstKept(n, p)) == []
  {
    var m := Built(n, p);
    OrderedPicks(n, p);
    PhaseCarries(n, p);
    PhaseTakes(n, p);
    LiveDeadMembers(Last(m.src), Tip(m.dst), Mine(n, p));
    LiveDeadMembers(Last(m.dst), Tip(m.src), Theirs(n, p));
    if DeadMine(n, p) != [] {
      GivenUp(Last(m.src), Tip(m.dst), Mine(n, p), DstKept(n, p));
    } else if DeadTheirs(n, p) != [] {
      GivenUp(Last(m.dst), Tip(m.src), Theirs(n, p), SrcKept(n, p));
    } else if PhaseInTime(n, p) {
      NoneDead(Last(m.src), Tip(m.dst), Mine(n, p));
      NoneDead(Last(m.dst), Tip(m.src), Theirs(n, p));
    } else if Loses(LiveMine(n, p), DstKept(n, p)) {
      Lost(LiveMine(n, p), DstKept(n, p), Mine(n, p));
    } else {
      Lost(LiveTheirs(n, p), SrcKept(n, p), Theirs(n, p));
    }
  }

  // ---- The acknowledgement phase leaves deliveries alone ----------------------------------------

  ghost predicate AckOnly(msgs: seq<Msg>) {
    forall i :: 0 <= i < |msgs| ==> msgs[i].UpdateClient? || msgs[i].Ack?
  }

  /** What acknowledgements leave alone. */
  ghost predicate SameDelivery(e: End, e': End) {
    && e'.delivered == e.delivered && e'.nextRecv == e.nextRecv && e'.acks == e.acks
    && e'.sent == e.sent && e'.open == e.open && e'.timedOut == e.timedOut
  }

  lemma {:induction false} AckTx(order: Order, e: End, at: nat, peer: seq<End>, msgs: seq<Msg>)
    requires AckOnly(msgs)
    ensures ExecTx(order, e, at, peer, msgs).Some? ==> SameDelivery(e, ExecTx(order, e, at, peer, msgs).value)
    decreases |msgs|
  {
    if msgs != [] && Exec(order, e, at, peer, msgs[0]).Some? {
      assert msgs[0].UpdateClient? || msgs[0].Ack?;
      AckTx(order, Exec(order, e, at, peer, msgs[0]).value, at, peer, msgs[1..]);
    }
  }

  lemma AckOnlyConcat(a: seq<Msg>, b: seq<Msg>)
    requires AckOnly(a + b)
    ensures AckOnly(a) && AckOnly(b)
  {
    assert forall i :: 0 <= i < |a| ==> a[i] == (a + b)[i];
    assert forall i :: 0 <= i < |b| ==> b[i] == (a + b)[|a| + i];
  }

  lemma {:induction false} AckLog(order: Order, chain: seq<End>, peer: seq<End>, log: seq<seq<Message<Msg>>>, slots: nat -> Slot)
    requires chain != [] && AckOnly(Bodies(Flatten(log)))
    ensures SameDelivery(Last(chain), Last(SendLog(order, chain, peer, log, slots).chain))
  {
    if log != [] {
      var front, back := log[..|log| - 1], log[|log| - 1];
      BodiesConcat(Flatten(front), back);
      AckOnlyConcat(Bodies(Flatten(front)), Bodies(back));
      AckLog(order, chain, peer, front, slots);
      var at := LastLanding(order, chain, peer, log, slots);
      var e := Last(SendLog(order, chain, peer, front, slots).chain).(time := at.time);
      AckTx(order, e, at.height, peer, Bodies(back));
    }
  }

  lemma AckMsgsOnly(peer: seq<End>, q: seq<nat>)
    requires peer != []
    ensures AckOnly(AckMsgs(peer, q))
  {
  }

  /** Whatever the acknowledgement phase achieves, what was delivered and sent stays. */
  lemma AckPhaseKeeps(n: Net, p: Plan)
    requires Inv(n) && AckPlan(n, p)
    ensures Inv(After(n, p))
    ensures SameDelivery(Last(n.src), Last(After(n, p).src)) && SameDelivery(Last(n.dst), Last(After(n, p).dst))
  {
    var m := Built(n, p);
    BuiltEnds(n, p);
    AckMsgsOnly(m.dst, OwedSrc(n, p));
    AckMsgsOnly(m.src, OwedDst(n, p));
    AckLog(n.order, m.src, m.dst, p.srcLog, p.srcSlots);
    AckLog(n.order, m.dst, m.src, p.dstLog, p.dstSlots);
    PhaseKeepsInv(n, p);
  }
}
