/**
  Acknowledgements over many passes on an ordered channel: a worker that starts without an
  acknowledgement debt never has one, whatever expires and whichever end a timeout closes.
 */
module Settling {
  import opened Packets
  import opened Batching
  import opened Relay
  import opened Rounds
  import opened PacketRounds
  import opened PacketPhases
  import opened Passes
  import opened OrderedRounds
  import opened Draining
  import opened OrderedAcks

  // ---- Steady state ------------------------------------------------------------------------

  /** Packets delivered whose acknowledgement has not come back. */
  function Debt(sender: End, receiver: End): int {
    |receiver.delivered| - |sender.acked|
  }

  /** On an open ordered channel all sets of packets are ranges. */
  ghost predicate Ranged(sender: End, receiver: End) {
    && (forall s :: s in sender.commitments <==> |sender.acked| < s <= |sender.sent|)
    && (forall s :: s in receiver.acks <==> 1 <= s <= |receiver.delivered|)
    && sender.nextAck == |sender.acked| + 1 && |sender.acked| <= |receiver.delivered| <= |sender.sent|
  }

  lemma OrderedRanges(a: seq<End>, b: seq<End>)
    requires Pair(Ordered, a, b) && Last(a).open
    ensures Ranged(Last(a), Last(b))
  {
    LastOk(Ordered, a);
    LastOk(Ordered, b);
    forall s
      ensures s in Last(a).commitments <==> |Last(a).acked| < s <= |Last(a).sent|
      ensures s in Last(b).acks <==> 1 <= s <= |Last(b).delivered|
    {
      if s >= 0 {
        CountsMembers(Last(a).acked, s);
        CountsMembers(Last(b).delivered, s);
      }
    }
    BacklogIsNext(a, b, 0);
    AckedIsDelivered(Last(a), b);
  }

  lemma AckedIsDelivered(e: End, b: seq<End>)
    requires b != [] && Cross(e, b) && Counts(e.acked) && Counts(Last(b).delivered)
    ensures |e.acked| <= |Last(b).delivered|
  {
    if |e.acked| > 0 {
      CountsMembers(e.acked, |e.acked|);
      CountsMembers(Last(b).delivered, |e.acked|);
    }
  }

  /** The acks a chain is owed, whatever the order they are listed in. */
  ghost predicate OwedBy(sender: End, receiver: End, q: seq<nat>) {
    NoDup(q) && forall s :: s in q <==> s in receiver.acks && s in sender.commitments
  }

  /** With at most one ack owed, the listing order cannot matter. */
  lemma OneAckIsConsecutive(sender: End, receiver: End, q: seq<nat>)
    requires Ranged(sender, receiver) && OwedBy(sender, receiver, q) && Debt(sender, receiver) <= 1
    ensures Consecutive(q, sender.nextAck) && |q| == Debt(sender, receiver)
  {
    var next := sender.nextAck;
    assert forall s :: s in q ==> s == next;
    if |q| > 1 {
      var other := AnotherMember(q, next);
      assert false;
    }
    assert Debt(sender, receiver) == 1 ==> next in q;
    if q != [] {
      assert q[0] in q;
    }
  }

  /** Every packet delivered so far has been acknowledged back, in both directions. */
  ghost predicate NoDebt(n: Net)
    requires n.src != [] && n.dst != []
  {
    Debt(Last(n.src), Last(n.dst)) == 0 && Debt(Last(n.dst), Last(n.src)) == 0
  }

  /** One chain's part of an acknowledgement phase with at most one ack owed. */
  lemma SideSettles(e: End, f: End, self: seq<End>, peer: seq<End>, q: seq<nat>, log: seq<seq<Message<Msg>>>, slots: nat -> Slot)
    requires self != [] && peer != [] && SameEnd(e, Last(self)) && SameEnd(f, Last(peer)) && e.open
    requires Ranged(e, f) && OwedBy(e, f, q) && Debt(e, f) <= 1 && Bodies(Flatten(log)) == AckMsgs(peer, q)
    ensures var r := SendLog(Ordered, self, peer, log, slots);
            AcceptedUnlessEmpty(log, r.accepted) && |Last(r.chain).acked| == |f.delivered|
  {
    OneAckIsConsecutive(e, f, q);
    OrderedAcksIff(self, peer, q, log, slots);
  }

  lemma OwedSides(n: Net, p: Plan)
    requires n.src != [] && n.dst != [] && AckPlan(n, p)
    ensures OwedBy(Last(n.src), Last(n.dst), OwedSrc(n, p)) && OwedBy(Last(n.dst), Last(n.src), OwedDst(n, p))
  {
    var q := Asked(n, p);
    BuiltEnds(n, p);
    PendingAckMembers(Last(q.src), p.dstList, Last(q.dst).acks);
    PendingAckMembers(Last(q.dst), p.srcList, Last(q.src).acks);
  }

  lemma BothRanged(n: Net)
    requires OpenOrdered(n)
    ensures Ranged(Last(n.src), Last(n.dst)) && Ranged(Last(n.dst), Last(n.src))
  {
    OrderedRanges(n.src, n.dst);
    PairSwap(n.order, n.src, n.dst);
    OrderedRanges(n.dst, n.src);
  }

  /** With no debt nothing is owed, and there is nothing to send. */
  lemma NothingOwed(e: End, f: End, q: seq<nat>)
    requires SenderOk(Ordered, e) && ReceiverOk(Ordered, f) && Debt(e, f) == 0 && OwedBy(e, f, q)
    ensures q == []
  {
    if q != [] {
      var s := AnyMember(q);
      CountsMembers(f.delivered, s);
      CountsMembers(e.acked, s);
      assert false;
    }
  }

  lemma NothingSent(self: seq<End>, peer: seq<End>, log: seq<seq<Message<Msg>>>, slots: nat -> Slot)
    requires self != [] && Bodies(Flatten(log)) == []
    ensures var r := SendLog(Ordered, self, peer, log, slots);
            AcceptedUnlessEmpty(log, r.accepted) && Last(r.chain).acked == Last(self).acked
  {
    var late := Tip(SendLog(Ordered, self, peer, log, slots).chain);
    QueueIsSent(Ordered, self, peer, log, slots, [], Last(self).(time := late.time));
  }

  /** The sender is owed nothing, or one acknowledgement that its open end can take. */
  ghost predicate Owing(e: End, f: End) {
    Debt(e, f) == 0 || (Debt(e, f) == 1 && e.open && Ranged(e, f))
  }

  /** One chain's part of an acknowledgement phase, open or closed. */
  lemma SidePays(e: End, f: End, self: seq<End>, peer: seq<End>, q: seq<nat>, log: seq<seq<Message<Msg>>>, slots: nat -> Slot)
    requires self != [] && peer != [] && SameEnd(e, Last(self)) && SameEnd(f, Last(peer))
    requires SenderOk(Ordered, e) && ReceiverOk(Ordered, f) && Owing(e, f)
    requires OwedBy(e, f, q) && Bodies(Flatten(log)) == AckMsgs(peer, q)
    ensures var r := SendLog(Ordered, self, peer, log, slots);
            AcceptedUnlessEmpty(log, r.accepted) && |Last(r.chain).acked| == |f.delivered|
  {
    if Debt(e, f) == 0 {
      NothingOwed(e, f, q);
      assert Acks(q, |peer| - 1) == [];
      NothingSent(self, peer, log, slots);
    } else {
      SideSettles(e, f, self, peer, q, log, slots);
    }
  }

  /** The acknowledgement phase pays what is owed. */
  lemma PhaseSettles(n: Net, p: Plan)
    requires Inv(n) && n.order.Ordered? && AckPlan(n, p)
    requires Owing(Last(n.src), Last(n.dst)) && Owing(Last(n.dst), Last(n.src))
    ensures OnlyEmptyRejected(n, p) && NoDebt(After(n, p))
  {
    var m := Built(n, p);
    BuiltEnds(n, p);
    OwedSides(n, p);
    LastOk(n.order, n.src);
    LastOk(n.order, n.dst);
    SidePays(Last(n.src), Last(n.dst), m.src, m.dst, OwedSrc(n, p), p.srcLog, p.srcSlots);
    SidePays(Last(n.dst), Last(n.src), m.dst, m.src, OwedDst(n, p), p.dstLog, p.dstSlots);
    AckPhaseKeeps(n, p);
  }

  // ---- Any pass -------------------------------------------------------------------------------

  /** One direction without debt: the sender's end is open, or the packet that is due has been timed out. */
  ghost predicate Steady(e: End, f: End) {
    Debt(e, f) == 0 && (e.open || |f.delivered| + 1 in e.timedOut)
  }

  ghost predicate SteadyNet(n: Net) {
    Inv(n) && n.order.Ordered? && Steady(Last(n.src), Last(n.dst)) && Steady(Last(n.dst), Last(n.src))
  }

  /** After a packet phase: still steady, or one acknowledgement behind with an open end. */
  ghost predicate Behind(e: End, f: End) {
    Steady(e, f) || (Debt(e, f) == 1 && e.open)
  }

  lemma GrewSteady(e: End, f: End, e': End, f': End)
    requires Steady(e, f) && Grew(e, e') && Grew(f, f')
    ensures Steady(e', f')
  {
  }

  /** The packets `q` that a phase relays in one direction, and what becomes of them. */
  ghost predicate Phase(e: End, f: End, e': End, f': End, q: seq<nat>, live: seq<nat>, dead: seq<nat>, here: seq<Msg>, there: seq<Msg>) {
    && Carried(Ordered, e, e', here) && Carried(Ordered, f, f', there)
    && (forall s :: s in q ==> s in e.commitments && s == |f.delivered| + 1)
    && (forall s :: s in live ==> s in q && s !in dead) && (forall s :: s in dead ==> s in q)
    && (forall s :: s in RecvsIn(there) ==> s in live) && (forall s :: s in TimeoutsIn(here) ==> s in dead)
  }

  lemma PhaseBehind(e: End, f: End, e': End, f': End, q: seq<nat>, live: seq<nat>, dead: seq<nat>, here: seq<Msg>, there: seq<Msg>)
    requires Phase(e, f, e', f', q, live, dead, here, there) && Steady(e, f) && SenderOk(Ordered, e) && Counts(f'.delivered)
    ensures Behind(e', f')
  {
    var s := |f.delivered| + 1;
    OneMore(f.delivered, RecvsIn(there), [s]);
    if TimeoutsIn(here) != [] {
      var t := AnyMember(TimeoutsIn(here));
      assert t == s && s in dead && s !in RecvsIn(there) && RecvsIn(there) == [];
    } else if !e.open {
      assert s in e.timedOut && s !in e.commitments && s !in RecvsIn(there) && RecvsIn(there) == [];
    }
  }

  /** The two directions of a packet phase. */
  lemma BothPhases(n: Net, p: Plan)
    requires Inv(n) && n.order.Ordered? && PacketPlan(n, p)
    ensures var n' := After(n, p);
            && Phase(Last(n.src), Last(n.dst), Last(n'.src), Last(n'.dst), Mine(n, p), LiveMine(n, p), DeadMine(n, p),
                     SrcKept(n, p), DstKept(n, p))
            && Phase(Last(n.dst), Last(n.src), Last(n'.dst), Last(n'.src), Theirs(n, p), LiveTheirs(n, p), DeadTheirs(n, p),
                     DstKept(n, p), SrcKept(n, p))
  {
    var m, n' := Built(n, p), After(n, p);
    PhaseCarries(n, p);
    PhasePending(n, p);
    BuiltEnds(n, p);
    LastOk(n.order, n.src);
    LastOk(n.order, n.dst);
    OnePhase(Last(n.src), Last(n.dst), Last(n'.src), Last(n'.dst), Last(m.src), Last(m.dst), Tip(m.dst), Mine(n, p), SrcKept(n, p), DstKept(n, p));
    OnePhase(Last(n.dst), Last(n.src), Last(n'.dst), Last(n'.src), Last(m.dst), Last(m.src), Tip(m.src), Theirs(n, p), DstKept(n, p), SrcKept(n, p));
  }

  /** One direction, whose ends are `sender` and `receiver` when the messages are built. */
  lemma OnePhase(e: End, f: End, e': End, f': End, sender: End, receiver: End, seen: Moment, q: seq<nat>, here: seq<Msg>, there: seq<Msg>)
    requires Carried(Ordered, e, e', here) && Carried(Ordered, f, f', there) && ReceiverOk(Ordered, f)
    requires SameEnd(e, sender) && SameEnd(f, receiver) && PendingFor(Ordered, sender, receiver, q)
    requires forall s :: s in RecvsIn(there) ==> s in Live(sender, seen, q)
    requires forall s :: s in TimeoutsIn(here) ==> s in Dead(sender, seen, q)
    ensures Phase(e, f, e', f', q, Live(sender, seen, q), Dead(sender, seen, q), here, there)
  {
    LiveDeadMembers(sender, seen, q);
  }

  lemma PacketsBehind(n: Net, p: Plan)
    requires SteadyNet(n) && PacketPlan(n, p)
    ensures var n' := After(n, p);
            Inv(n') && Behind(Last(n'.src), Last(n'.dst)) && Behind(Last(n'.dst), Last(n'.src))
  {
    var n' := After(n, p);
    PhaseKeepsInv(n, p);
    BothPhases(n, p);
    LastOk(n.order, n.src);
    LastOk(n.order, n.dst);
    LastOk(n.order, n'.src);
    LastOk(n.order, n'.dst);
    PhaseBehind(Last(n.src), Last(n.dst), Last(n'.src), Last(n'.dst), Mine(n, p), LiveMine(n, p), DeadMine(n, p), SrcKept(n, p), DstKept(n, p));
    PhaseBehind(Last(n.dst), Last(n.src), Last(n'.dst), Last(n'.src), Theirs(n, p), LiveTheirs(n, p), DeadTheirs(n, p), DstKept(n, p), SrcKept(n, p));
  }

  lemma BehindOwes(a: seq<End>, b: seq<End>)
    requires Pair(Ordered, a, b) && Behind(Last(a), Last(b))
    ensures Owing(Last(a), Last(b))
  {
    if Last(a).open {
      OrderedRanges(a, b);
    }
  }

  lemma AcksSteady(n: Net, p: Plan)
    requires Inv(n) && n.order.Ordered? && AckPlan(n, p)
    requires Behind(Last(n.src), Last(n.dst)) && Behind(Last(n.dst), Last(n.src))
    ensures SteadyNet(After(n, p)) && OnlyEmptyRejected(n, p)
  {
    BehindOwes(n.src, n.dst);
    PairSwap(n.order, n.src, n.dst);
    BehindOwes(n.dst, n.src);
    PhaseSettles(n, p);
    AckPhaseKeeps(n, p);
  }

  /**
    Started without a debt, the acknowledgement phase of any pass is accepted but for empty
    batches, whatever the listings, the cuts, the gaps and the timeouts, and leaves no debt.
   */
  lemma SteadyPass(n: Net, pass: Pass)
    requires SteadyNet(n) && IsPass(n, pass)
    ensures SteadyNet(Done(n, pass)) && OnlyEmptyRejected(Halfway(n, pass), pass.acks)
  {
    var g := Grown(n, pass);
    PassKeepsInv(n, pass);
    GrowKeeps(n, pass.grow);
    GrewSteady(Last(n.src), Last(n.dst), Last(g.src), Last(g.dst));
    GrewSteady(Last(n.dst), Last(n.src), Last(g.dst), Last(g.src));
    PacketsBehind(g, pass.packets);
    AcksSteady(Halfway(n, pass), pass.acks);
  }

  /** The acknowledgement phases of the run were accepted but for empty batches, and no pass left a debt. */
  ghost predicate AllSettle(n: Net, passes: seq<Pass>)
    requires n.src != [] && n.dst != []
    decreases |passes|
  {
    passes == [] ||
    (var front, pass := passes[..|passes| - 1], passes[|passes| - 1];
     AllSettle(n, front) && NoDebt(Final(n, passes)) && OnlyEmptyRejected(Halfway(Final(n, front), pass), pass.acks))
  }

  lemma {:induction false} SteadyRun(n: Net, passes: seq<Pass>)
    requires SteadyNet(n) && ArePasses(n, passes)
    ensures AllSettle(n, passes) && SteadyNet(Final(n, passes))
    decreases |passes|
  {
    if passes != [] {
      SteadyRun(n, passes[..|passes| - 1]);
      SteadyPass(Final(n, passes[..|passes| - 1]), passes[|passes| - 1]);
    }
  }

  /** An open channel without debt is steady. */
  lemma OpenIsSteady(n: Net)
    requires OpenOrdered(n) && NoDebt(n)
    ensures SteadyNet(n)
  {
  }

  /** No new packets, and as many passes as there were packets to deliver. */
  ghost predicate Enough(t: Tally, u: Tally, k: nat) {
    && u.srcSent == t.srcSent <= t.dstDelivered + k
    && u.dstSent == t.dstSent <= t.srcDelivered + k
  }

  lemma NoBacklog(t: Tally, u: Tally, k: nat)
    requires Drained(t, u, k) && Enough(t, u, k)
    ensures Empty(u)
  {
  }

  /** Everything sent has been delivered. */
  ghost predicate Empty(t: Tally) {
    t.dstDelivered == t.srcSent && t.srcDelivered == t.dstSent
  }

  lemma EnoughIsDrained(n: Net, passes: seq<Pass>)
    requires OpenOrdered(n) && ArePasses(n, passes) && AllOnTime(n, passes)
    requires Enough(TallyOf(n), TallyOf(Final(n, passes)), |passes|)
    ensures Empty(TallyOf(Final(n, passes)))
  {
    OrderedDrain(n, passes);
    NoBacklog(TallyOf(n), TallyOf(Final(n, passes)), |passes|);
  }

  /** Such a run leaves nothing outstanding. */
  lemma EnoughIsClear(n: Net, passes: seq<Pass>)
    requires OpenOrdered(n) && NoDebt(n) && ArePasses(n, passes) && AllOnTime(n, passes)
    requires Enough(TallyOf(n), TallyOf(Final(n, passes)), |passes|)
    ensures Last(Final(n, passes).src).commitments == {} && Last(Final(n, passes).dst).commitments == {}
  {
    OrderedDrain(n, passes);
    OpenIsSteady(n);
    SteadyRun(n, passes);
    EnoughIsDrained(n, passes);
    DrainedIsClear(Final(n, passes));
  }

  /** A drained channel without debt has no commitment left on either chain. */
  lemma DrainedIsClear(n: Net)
    requires OpenOrdered(n) && NoDebt(n) && Empty(TallyOf(n))
    ensures Last(n.src).commitments == {} && Last(n.dst).commitments == {}
  {
    BothRanged(n);
  }
}
