/**
  Any number of passes on an ordered channel, with new packets sent between them: every pass
  delivers the next packet of each direction if and only if it is on time, and then the backlog
  goes down by one per pass.
 */
module Draining {
  import opened Types
  import opened Packets
  import opened Relay
  import opened Rounds
  import opened PacketRounds
  import opened PacketPhases
  import opened Passes
  import opened OrderedRounds

  // ---- One pass -------------------------------------------------------------------------

  lemma GrownOpen(a: Net, pass: Pass)
    requires OpenOrdered(a) && IsPass(a, pass)
    ensures OpenOrdered(Grown(a, pass))
  {
    GrowKeeps(a, pass.grow);
    PassKeepsInv(a, pass);
  }

  /** What the parts of a pass do to one end. */
  ghost predicate Parts(a: End, b: End, h: End, c: End, kept: seq<Msg>) {
    Grew(a, b) && Carried(Ordered, b, h, kept) && SameDelivery(h, c)
  }

  lemma PassParts(a: Net, pass: Pass)
    requires OpenOrdered(a) && IsPass(a, pass)
    ensures var b, h, c, p := Grown(a, pass), Halfway(a, pass), Done(a, pass), pass.packets;
            && Parts(Last(a.src), Last(b.src), Last(h.src), Last(c.src), SrcKept(b, p))
            && Parts(Last(a.dst), Last(b.dst), Last(h.dst), Last(c.dst), DstKept(b, p))
            && Inv(h) && Inv(c)
  {
    GrownOpen(a, pass);
    GrowKeeps(a, pass.grow);
    OrderedPackets(Grown(a, pass), pass.packets);
    AckPhaseKeeps(Halfway(a, pass), pass.acks);
  }

  /** The packet that comes after the first `d`, if `sent` were sent. */
  function Upcoming(d: nat, sent: nat): seq<nat> {
    if d < sent then [d + 1] else []
  }

  lemma PartsAdvance(a: End, a': End, b: End, b': End, h: End, h': End, c: End, c': End, kept: seq<Msg>, kept': seq<Msg>)
    requires Parts(a, b, h, c, kept) && Parts(a', b', h', c', kept') && RecvsIn(kept') == Next(b, b') && RecvsIn(kept) == Next(b', b)
    ensures c.delivered == a.delivered + Upcoming(|a.delivered|, |c'.sent|) && a.sent <= c.sent
    ensures c'.delivered == a'.delivered + Upcoming(|a'.delivered|, |c.sent|) && a'.sent <= c'.sent
  {
  }

  /** A pass on time delivers exactly the next packet of each direction that has one, whatever becomes of the acknowledgements. */
  lemma OrderedPass(a: Net, pass: Pass)
    requires OpenOrdered(a) && IsPass(a, pass) && OnTime(Grown(a, pass), pass.packets)
    ensures var c := Done(a, pass);
            && OpenOrdered(Halfway(a, pass)) && OpenOrdered(c)
            && Last(c.dst).delivered == Last(a.dst).delivered + Upcoming(|Last(a.dst).delivered|, |Last(c.src).sent|)
            && Last(c.src).delivered == Last(a.src).delivered + Upcoming(|Last(a.src).delivered|, |Last(c.dst).sent|)
            && Last(a.src).sent <= Last(c.src).sent && Last(a.dst).sent <= Last(c.dst).sent
  {
    var b, h, c, p := Grown(a, pass), Halfway(a, pass), Done(a, pass), pass.packets;
    GrownOpen(a, pass);
    PassParts(a, pass);
    DeliverIff(b, p);
    PartsAdvance(Last(a.src), Last(a.dst), Last(b.src), Last(b.dst), Last(h.src), Last(h.dst), Last(c.src), Last(c.dst),
                 SrcKept(b, p), DstKept(b, p));
  }

  // ---- Many passes ---------------------------------------------------------------------------

  /** How many packets either end has sent, and how many it has delivered. */
  datatype Tally = Tally(srcSent: nat, srcDelivered: nat, dstSent: nat, dstDelivered: nat)

  function TallyOf(n: Net): Tally
    requires n.src != [] && n.dst != []
  {
    Tally(|Last(n.src).sent|, |Last(n.src).delivered|, |Last(n.dst).sent|, |Last(n.dst).delivered|)
  }

  /** A pass: maybe more packets sent, then one more delivered if there is one. */
  ghost predicate Ticks(t: Tally, u: Tally) {
    && t.srcSent <= u.srcSent && t.dstSent <= u.dstSent
    && u.dstDelivered == Min(t.dstDelivered + 1, u.srcSent)
    && u.srcDelivered == Min(t.srcDelivered + 1, u.dstSent)
  }

  /**
    One direction after `k` passes: at most one packet each, nothing missing that had been
    sent from the start, nothing that was never sent; exact when nothing new is sent.
   */
  ghost predicate Drains(delivered: nat, sent: nat, delivered': nat, sent': nat, k: nat) {
    && delivered <= delivered' && sent <= sent'
    && Min(delivered + k, sent) <= delivered' <= Min(delivered + k, sent')
  }

  ghost predicate Drained(t: Tally, u: Tally, k: nat) {
    && Drains(t.dstDelivered, t.srcSent, u.dstDelivered, u.srcSent, k)
    && Drains(t.srcDelivered, t.dstSent, u.srcDelivered, u.dstSent, k)
  }

  lemma DrainedTick(t: Tally, u: Tally, v: Tally, k: nat)
    requires Drained(t, u, k) && Ticks(u, v)
    ensures Drained(t, v, k + 1)
  {
  }

  lemma DrainedAtStart(n: Net)
    requires OpenOrdered(n)
    ensures Drained(TallyOf(n), TallyOf(n), 0)
  {
    PairSwap(n.order, n.src, n.dst);
    BacklogIsNext(n.src, n.dst, 0);
    BacklogIsNext(n.dst, n.src, 0);
  }

  lemma Second(d: seq<nat>, k: seq<nat>)
    requires Counts(d + k) && |k| > 1
    ensures |d| + 2 in k
  {
    assert (d + k)[|d| + 1] == k[1];
  }

  /** An ordered end delivers at most the one packet there is. */
  lemma OneMore(d: seq<nat>, k: seq<nat>, next: seq<nat>)
    requires Counts(d + k) && (next == [] || next == [|d| + 1]) && forall s :: s in k ==> s in next
    ensures k == [] || k == next
  {
    if |k| > 1 {
      Second(d, k);
      assert false;
    }
    assert k != [] ==> k[0] in k;
  }

  /** The packets of one direction that a pass delivers: the next one, or none. */
  lemma NextOrNone(n: Net, p: Plan)
    requires OpenOrdered(n) && PacketPlan(n, p)
    ensures RecvsIn(DstKept(n, p)) == [] || RecvsIn(DstKept(n, p)) == Next(Last(n.src), Last(n.dst))
    ensures RecvsIn(SrcKept(n, p)) == [] || RecvsIn(SrcKept(n, p)) == Next(Last(n.dst), Last(n.src))
  {
    OrderedPicks(n, p);
    OrderedPackets(n, p);
    DeliverOnlyNext(n, p);
    LastOk(n.order, After(n, p).src);
    LastOk(n.order, After(n, p).dst);
    OneMore(Last(n.src).delivered, RecvsIn(SrcKept(n, p)), Theirs(n, p));
    OneMore(Last(n.dst).delivered, RecvsIn(DstKept(n, p)), Mine(n, p));
  }

  lemma DeliverOnlyNext(n: Net, p: Plan)
    requires OpenOrdered(n) && PacketPlan(n, p)
    ensures forall s :: s in RecvsIn(DstKept(n, p)) ==> s in Mine(n, p)
    ensures forall s :: s in RecvsIn(SrcKept(n, p)) ==> s in Theirs(n, p)
  {
    var m := Built(n, p);
    PhaseCarries(n, p);
    PhasePending(n, p);
    LiveDeadMembers(Last(m.src), Tip(m.dst), Mine(n, p));
    LiveDeadMembers(Last(m.dst), Tip(m.src), Theirs(n, p));
  }

  lemma EndsTick(a: End, a': End, b: End, b': End, h: End, h': End, c: End, c': End, kept: seq<Msg>, kept': seq<Msg>)
    requires Parts(a, b, h, c, kept) && Parts(a', b', h', c', kept') && |a'.delivered| <= |a.sent| && |a.delivered| <= |a'.sent|
    requires RecvsIn(kept') == [] || RecvsIn(kept') == Next(b, b')
    requires RecvsIn(kept) == [] || RecvsIn(kept) == Next(b', b)
    ensures Ticks(Tally(|a.sent|, |a.delivered|, |a'.sent|, |a'.delivered|),
                  Tally(|c.sent|, |c.delivered|, |c'.sent|, |c'.delivered|))
       <==> RecvsIn(kept') == Next(b, b') && RecvsIn(kept) == Next(b', b)
  {
  }

  /** A pass delivers exactly the next packet of each direction that has one if and only if it is on time. */
  lemma PassTicks(y: Net, pass: Pass)
    requires OpenOrdered(y) && IsPass(y, pass)
    ensures Ticks(TallyOf(y), TallyOf(Done(y, pass))) <==> OnTime(Grown(y, pass), pass.packets)
    ensures OnTime(Grown(y, pass), pass.packets) ==> OpenOrdered(Halfway(y, pass)) && OpenOrdered(Done(y, pass))
  {
    var b, h, c, p := Grown(y, pass), Halfway(y, pass), Done(y, pass), pass.packets;
    DrainedAtStart(y);
    GrownOpen(y, pass);
    PassParts(y, pass);
    NextOrNone(b, p);
    DeliverIff(b, p);
    EndsTick(Last(y.src), Last(y.dst), Last(b.src), Last(b.dst), Last(h.src), Last(h.dst), Last(c.src), Last(c.dst),
             SrcKept(b, p), DstKept(b, p));
  }

  /** Every pass of the run delivers the next packet of each direction that has one. */
  ghost predicate AllTick(n: Net, passes: seq<Pass>)
    requires n.src != [] && n.dst != []
    decreases |passes|
  {
    passes == [] ||
    (AllTick(n, passes[..|passes| - 1]) && Ticks(TallyOf(Final(n, passes[..|passes| - 1])), TallyOf(Final(n, passes))))
  }

  lemma {:induction false} TicksDrain(n: Net, passes: seq<Pass>)
    requires n.src != [] && n.dst != [] && AllTick(n, passes) && Drained(TallyOf(n), TallyOf(n), 0)
    ensures Drained(TallyOf(n), TallyOf(Final(n, passes)), |passes|)
    decreases |passes|
  {
    if passes != [] {
      var front := passes[..|passes| - 1];
      TicksDrain(n, front);
      DrainedTick(TallyOf(n), TallyOf(Final(n, front)), TallyOf(Final(n, passes)), |front|);
    }
  }

  /** Every packet phase of the run was on time. */
  ghost predicate AllOnTime(n: Net, passes: seq<Pass>)
    requires n.src != [] && n.dst != []
    decreases |passes|
  {
    passes == [] ||
    (var front, pass := passes[..|passes| - 1], passes[|passes| - 1];
     AllOnTime(n, front) && OnTime(Grown(Final(n, front), pass), pass.packets))
  }

  lemma {:induction false} PassesTick(n: Net, passes: seq<Pass>)
    requires OpenOrdered(n) && ArePasses(n, passes)
    ensures AllTick(n, passes) <==> AllOnTime(n, passes)
    ensures AllOnTime(n, passes) ==> OpenOrdered(Final(n, passes))
    decreases |passes|
  {
    if passes != [] {
      var front, pass := passes[..|passes| - 1], passes[|passes| - 1];
      PassesTick(n, front);
      if AllOnTime(n, front) {
        PassTicks(Final(n, front), pass);
      }
    }
  }

  /**
    A run of passes that are all on time: the packets sent before the run are delivered, one per
    pass and direction, and min(k, backlog) of them in k passes.  What is delivered is always
    1, 2, 3, ... without a gap.
   */
  lemma OrderedDrain(n: Net, passes: seq<Pass>)
    requires OpenOrdered(n) && ArePasses(n, passes) && AllOnTime(n, passes)
    ensures OpenOrdered(Final(n, passes)) && Drained(TallyOf(n), TallyOf(Final(n, passes)), |passes|)
  {
    DrainedAtStart(n);
    PassesTick(n, passes);
    TicksDrain(n, passes);
  }

  /** At every point of such a run the deliveries are gap-free. */
  lemma GapFree(n: Net)
    requires OpenOrdered(n)
    ensures Counts(Last(n.src).delivered) && Counts(Last(n.dst).delivered)
  {
    LastOk(Ordered, n.src);
    LastOk(Ordered, n.dst);
  }

  // ---- Nothing expires ----------------------------------------------------------------------

  /**
    At the end of a run, seen at the last block of `receivers`, no packet of `sender` has
    expired that was undelivered at its beginning, when `first` was the receiving end.
   */
  ghost predicate NotExpired(first: End, sender: End, receivers: seq<End>)
    requires receivers != []
  {
    forall s {:trigger DeadlineOf(sender, s)} :: |first.delivered| < s <= |sender.sent| ==>
      !Expired(DeadlineOf(sender, s), |receivers| - 1, Last(receivers).time)
  }

  ghost predicate NoneExpired(a: Net, z: Net)
    requires a.src != [] && a.dst != [] && z.src != [] && z.dst != []
  {
    NotExpired(Last(a.dst), Last(z.src), z.dst) && NotExpired(Last(a.src), Last(z.dst), z.src)
  }

  lemma NotExpiredEarlier(first: End, sender: End, receivers: seq<End>, sender': End, receivers': seq<End>)
    requires receivers != [] && receivers' != [] && NotExpired(first, sender', receivers')
    requires Evolves(sender, sender') && |receivers| <= |receivers'| && Last(receivers).time <= Last(receivers').time
    ensures NotExpired(first, sender, receivers)
  {
    forall s | |first.delivered| < s <= |sender.sent|
      ensures !Expired(DeadlineOf(sender, s), |receivers| - 1, Last(receivers).time)
    {
      DeadlineStable(sender, sender', s);
    }
  }

  lemma NoneExpiredEarlier(a: Net, y: Net, z: Net)
    requires a.src != [] && a.dst != [] && y.src != [] && y.dst != []
    requires Extends(y, z) && Inv(z) && NoneExpired(a, z)
    ensures NoneExpired(a, y)
  {
    Later(z.order, y.src, z.src);
    Later(z.order, y.dst, z.dst);
    NotExpiredEarlier(Last(a.dst), Last(y.src), y.dst, Last(z.src), z.dst);
    NotExpiredEarlier(Last(a.src), Last(y.dst), y.src, Last(z.dst), z.src);
  }

  /** The next packet has not expired at the end of the phase. */
  lemma NextNotExpired(first: End, sender: End, receiver: End, sender': End, receivers: seq<End>)
    requires receivers != [] && NotExpired(first, sender', receivers) && sender'.sent == sender.sent
    requires |receiver.delivered| >= |first.delivered|
    ensures forall s :: s in Next(sender, receiver) ==>
              !Expired(DeadlineOf(sender, s), Tip(receivers).height, Tip(receivers).time)
  {
    SameDeadlines(sender, sender');
  }

  lemma PhaseOnTime(n: Net, p: Plan, first: End, first': End)
    requires OpenOrdered(n) && PacketPlan(n, p)
    requires |Last(n.dst).delivered| >= |first'.delivered| && |Last(n.src).delivered| >= |first.delivered|
    requires NotExpired(first', Last(After(n, p).src), After(n, p).dst) && NotExpired(first, Last(After(n, p).dst), After(n, p).src)
    ensures OnTime(n, p)
  {
    var m := Built(n, p);
    OrderedPicks(n, p);
    BuiltEnds(n, p);
    OrderedPackets(n, p);
    NextNotExpired(first', Last(n.src), Last(n.dst), Last(After(n, p).src), After(n, p).dst);
    NextNotExpired(first, Last(n.dst), Last(n.src), Last(After(n, p).dst), After(n, p).src);
    SameDeadlines(Last(n.src), Last(m.src));
    SameDeadlines(Last(n.dst), Last(m.dst));
    DirectionOnTime(n.order, m.src, m.dst, Mine(n, p), Theirs(n, p), false, p.dstLog, p.dstSlots);
    DirectionOnTime(n.order, m.dst, m.src, Theirs(n, p), Mine(n, p), true, p.srcLog, p.srcSlots);
  }

  lemma PassOnTime(a: Net, pass: Pass)
    requires OpenOrdered(a) && IsPass(a, pass) && NoneExpired(a, Done(a, pass))
    ensures OnTime(Grown(a, pass), pass.packets)
  {
    PassExtends(a, pass);
    PassKeepsInv(a, pass);
    NoneExpiredEarlier(a, Halfway(a, pass), Done(a, pass));
    GrowKeeps(a, pass.grow);
    GrownOpen(a, pass);
    PhaseOnTime(Grown(a, pass), pass.packets, Last(a.src), Last(a.dst));
  }

  /** What has not expired since the first pass has not expired since a later one. */
  lemma NoneExpiredSince(a: Net, y: Net, z: Net)
    requires a.src != [] && a.dst != [] && y.src != [] && y.dst != [] && z.src != [] && z.dst != []
    requires NoneExpired(a, z)
    requires TallyOf(a).srcDelivered <= TallyOf(y).srcDelivered && TallyOf(a).dstDelivered <= TallyOf(y).dstDelivered
    ensures NoneExpired(y, z)
  {
  }

  lemma BeforePass(a: Net, y: Net, pass: Pass)
    requires a.src != [] && a.dst != [] && Inv(y) && IsPass(y, pass) && NoneExpired(a, Done(y, pass))
    ensures NoneExpired(a, y)
  {
    PassKeepsInv(y, pass);
    PassExtends(y, pass);
    NoneExpiredEarlier(a, y, Done(y, pass));
  }

  /** If no packet that was undelivered at the start has expired at the end, every pass was on time. */
  lemma {:induction false} NoneExpiredOnTime(n: Net, passes: seq<Pass>)
    requires OpenOrdered(n) && ArePasses(n, passes) && NoneExpired(n, Final(n, passes))
    ensures AllOnTime(n, passes)
    decreases |passes|
  {
    if passes != [] {
      var front, pass := passes[..|passes| - 1], passes[|passes| - 1];
      PassesKeepInv(n, front);
      BeforePass(n, Final(n, front), pass);
      NoneExpiredOnTime(n, front);
      OrderedDrain(n, front);
      NoneExpiredSince(n, Final(n, front), Done(Final(n, front), pass));
      PassOnTime(Final(n, front), pass);
    }
  }
}
