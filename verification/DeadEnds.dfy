/**
  Expired packets on an ordered channel.  Once the packet that is due has expired, nothing is
  delivered in its direction any more: a pass times it out and closes the sender's end, unless
  the source has to receive a packet in the same transaction, which blocks both directions.
 */
module DeadEnds {
  import opened Packets
  import opened Batching
  import opened Relay
  import opened Rounds
  import opened PacketRounds
  import opened PacketPhases
  import opened Passes
  import opened OrderedRounds

  // ---- No delivery any more ---------------------------------------------------------------

  /** The packet that `receivers` is waiting for was sent, and is barred. */
  ghost predicate DeadEnd(senders: seq<End>, receivers: seq<End>)
    requires senders != [] && receivers != []
  {
    var s := |Last(receivers).delivered| + 1;
    s <= |Last(senders).sent| && Barred(DeadlineOf(Last(senders), s), Last(receivers), |receivers| - 1)
  }

  /** Whatever both chains do later. */
  lemma DeadForever(a: seq<End>, b: seq<End>, a': seq<End>, b': seq<End>)
    requires a != [] && b != [] && DeadEnd(a, b) && a <= a' && b <= b' && Pair(Ordered, a', b')
    ensures Last(b').delivered == Last(b).delivered && DeadEnd(a', b')
  {
    var s, h := |Last(b).delivered| + 1, |b| - 1;
    Later(Ordered, a, a');
    Later(Ordered, b, b');
    LastOk(Ordered, b');
    DeadlineStable(Last(a), Last(a'), s);
    assert b'[h] == Last(b) && Barred(DeadlineOf(Last(a'), s), b'[h], h);
    BarredStays(DeadlineOf(Last(a'), s), Last(b), h, Last(b'), |b'| - 1);
    CountsMembers(Last(b').delivered, s);
    CountsPrefix(Last(b).delivered, Last(b').delivered);
    CountsMembers(Last(b).delivered, s);
  }

  lemma CountsPrefix(p: seq<nat>, q: seq<nat>)
    requires p <= q && Counts(q)
    ensures Counts(p)
  {
    assert forall i :: 0 <= i < |p| ==> p[i] == q[i];
  }

  /** Over every run of both chains, whatever relayers and applications do. */
  lemma DeadOverRuns(n: Net, steps: seq<Step>)
    requires Inv(n) && n.order.Ordered? && DeadEnd(n.src, n.dst)
    ensures Last(RunFrom(n, steps).dst).delivered == Last(n.dst).delivered
  {
    var z := RunFrom(n, steps);
    StepsKeep(n, steps);
    DeadForever(n.src, n.dst, z.src, z.dst);
  }

  lemma {:induction false} PassesExtend(n: Net, passes: seq<Pass>)
    requires n.src != [] && n.dst != []
    ensures Extends(n, Final(n, passes))
    decreases |passes|
  {
    if passes != [] {
      var front, pass := passes[..|passes| - 1], passes[|passes| - 1];
      PassesExtend(n, front);
      PassExtends(Final(n, front), pass);
      ExtendsTrans(n, Final(n, front), Final(n, passes));
    }
  }

  /** So no later pass delivers in that direction. */
  lemma DeadOverPasses(n: Net, passes: seq<Pass>)
    requires Inv(n) && n.order.Ordered? && DeadEnd(n.src, n.dst) && ArePasses(n, passes)
    ensures Last(Final(n, passes).dst).delivered == Last(n.dst).delivered
  {
    var z := Final(n, passes);
    PassesKeepInv(n, passes);
    PassesExtend(n, passes);
    DeadForever(n.src, n.dst, z.src, z.dst);
  }

  // ---- The pass that times out ---------------------------------------------------------------

  /** The end has timed out `s`, and nothing else, and is closed. */
  ghost predicate ClosedBy(e: End, e': End, s: nat) {
    e'.timedOut == [s] && !e'.open && e'.commitments == e.commitments - {s}
  }

  /** The dead packets of an ordered direction: the one that is due, or none. */
  lemma DeadIsNext(order: Order, sender: End, receiver: End, seen: Moment, q: seq<nat>)
    requires order.Ordered? && PendingFor(order, sender, receiver, q)
    ensures Dead(sender, seen, q) == [] || Dead(sender, seen, q) == [receiver.nextRecv]
    ensures Live(sender, seen, q) == [] || Live(sender, seen, q) == [receiver.nextRecv]
    ensures Dead(sender, seen, q) == [] || Live(sender, seen, q) == []
  {
    LiveDeadMembers(sender, seen, q);
    AllTheSame(Dead(sender, seen, q), receiver.nextRecv);
    AllTheSame(Live(sender, seen, q), receiver.nextRecv);
  }

  lemma AllTheSame(q: seq<nat>, s: nat)
    requires NoDup(q) && forall t :: t in q ==> t == s
    ensures q == [] || q == [s]
  {
    if q != [] {
      OnlyOne(q, s);
      assert q[0] in q;
    }
  }

  lemma Closing(e: End, e': End, kept: seq<Msg>, s: nat)
    requires Carried(Ordered, e, e', kept) && TimeoutsIn(kept) == [s] && e.timedOut == []
    ensures ClosedBy(e, e', s)
  {
    assert SetOf([s]) == {s};
  }

  /** A queue without receives is never late. */
  lemma NothingLate(x: Setting, log: seq<seq<Message<Msg>>>)
    requires RecvsIn(Bodies(Flatten(log))) == []
    ensures LogInTime(x, log)
  {
    InTimeByEnd(x, log, Land(x.start, x.slots, |log|));
  }

  /** A chain with nothing to receive takes all its timeouts. */
  lemma SideTimesOut(order: Order, self: seq<End>, peer: seq<End>, mine: seq<nat>, theirs: seq<nat>, first: bool,
                     log: seq<seq<Message<Msg>>>, slots: nat -> Slot)
    requires self != [] && peer != [] && Last(self).open && NoDup(theirs) && PendingFor(order, Last(self), Last(peer), mine)
    requires Bodies(Flatten(log)) == PacketQueue(self, peer, mine, theirs, first) && Live(Last(peer), Tip(self), theirs) == []
    ensures TimeoutsIn(KeptBy(order, self, peer, log, slots)) == Dead(Last(self), Tip(peer), mine)
  {
    BodyIn(self, peer, mine, theirs, first);
    UpdateIn(PacketBody(self, peer, mine, theirs, first), |peer| - 1);
    NothingLate(SettingOf(order, self, peer, slots), log);
    QueueOrderly(order, self, peer, mine, theirs, first);
    SideTakes(order, self, peer, mine, theirs, first, log, slots);
  }

  /** The source times out the packet that is due, if it has nothing to receive. */
  lemma SourceTimesOut(n: Net, p: Plan)
    requires OpenOrdered(n) && PacketPlan(n, p) && DeadMine(n, p) != [] && LiveTheirs(n, p) == []
    ensures ClosedBy(Last(n.src), Last(After(n, p).src), |Last(n.dst).delivered| + 1)
    ensures Last(After(n, p).dst).delivered == Last(n.dst).delivered
    ensures DeadEnd(After(n, p).src, After(n, p).dst)
  {
    var m := Built(n, p);
    PhasePending(n, p);
    BuiltEnds(n, p);
    LastOk(n.order, n.src);
    LastOk(n.order, n.dst);
    DeadIsNext(n.order, Last(m.src), Last(m.dst), Tip(m.dst), Mine(n, p));
    SideTimesOut(n.order, m.src, m.dst, Mine(n, p), Theirs(n, p), true, p.srcLog, p.srcSlots);
    PhaseCarries(n, p);
    Closing(Last(n.src), Last(After(n, p).src), SrcKept(n, p), |Last(n.dst).delivered| + 1);
    GaveUp(n, p);
  }

  /** What the relayer gives up is a dead end when the messages are built, and ever after. */
  lemma GaveUp(n: Net, p: Plan)
    requires OpenOrdered(n) && PacketPlan(n, p) && DeadMine(n, p) != []
    ensures Last(After(n, p).dst).delivered == Last(n.dst).delivered
    ensures DeadEnd(After(n, p).src, After(n, p).dst)
  {
    var m := Built(n, p);
    PhasePending(n, p);
    BuiltEnds(n, p);
    BuiltKeeps(n, p);
    LastOk(n.order, m.dst);
    DeadIsNext(n.order, Last(m.src), Last(m.dst), Tip(m.dst), Mine(n, p));
    LiveDeadMembers(Last(m.src), Tip(m.dst), Mine(n, p));
    var s := AnyMember(DeadMine(n, p));
    assert s == |Last(m.dst).delivered| + 1 && Lapsed(Last(m.src), Tip(m.dst), s);
    LastOk(n.order, m.src);
    assert DeadEnd(m.src, m.dst);
    PhaseKeepsInv(n, p);
    PhaseExtends(n, p);
    DeadForever(m.src, m.dst, After(n, p).src, After(n, p).dst);
  }

  /** The destination receives first, so it times out the packet that is due whenever its batches are in time. */
  lemma DestinationTimesOut(n: Net, p: Plan)
    requires OpenOrdered(n) && PacketPlan(n, p) && DeadTheirs(n, p) != []
    requires LogInTime(SettingOf(n.order, Built(n, p).dst, Built(n, p).src, p.dstSlots), p.dstLog)
    ensures ClosedBy(Last(n.dst), Last(After(n, p).dst), |Last(n.src).delivered| + 1)
    ensures Last(After(n, p).dst).delivered == Last(n.dst).delivered + LiveMine(n, p)
  {
    var m := Built(n, p);
    PhasePending(n, p);
    BuiltEnds(n, p);
    LastOk(n.order, n.src);
    LastOk(n.order, n.dst);
    DeadIsNext(n.order, Last(m.dst), Last(m.src), Tip(m.src), Theirs(n, p));
    QueueOrderly(n.order, m.dst, m.src, Theirs(n, p), Mine(n, p), false);
    SideTakes(n.order, m.dst, m.src, Theirs(n, p), Mine(n, p), false, p.dstLog, p.dstSlots);
    PhaseCarries(n, p);
    Closing(Last(n.dst), Last(After(n, p).dst), DstKept(n, p), |Last(n.src).delivered| + 1);
  }

  // ---- A timeout and a receive in one transaction -------------------------------------------------

  /** A timeout and a receive for the source that share one transaction: it is rejected, and nothing is carried out. */
  lemma TogetherRejected(n: Net, p: Plan)
    requires OpenOrdered(n) && PacketPlan(n, p) && DeadMine(n, p) != [] && LiveTheirs(n, p) != [] && |p.srcLog| == 1
    ensures SrcSent(n, p).accepted == [false] && SrcKept(n, p) == []
  {
    var m := Built(n, p);
    PhasePending(n, p);
    BuiltEnds(n, p);
    SideRejected(m.src, m.dst, Mine(n, p), Theirs(n, p), p.srcLog, p.srcSlots);
  }

  lemma SideRejected(self: seq<End>, peer: seq<End>, mine: seq<nat>, theirs: seq<nat>, log: seq<seq<Message<Msg>>>, slots: nat -> Slot)
    requires self != [] && peer != [] && Last(self).open && |log| == 1
    requires PendingFor(Ordered, Last(self), Last(peer), mine) && PendingFor(Ordered, Last(peer), Last(self), theirs)
    requires Bodies(Flatten(log)) == PacketQueue(self, peer, mine, theirs, true)
    requires Dead(Last(self), Tip(peer), mine) != [] && Live(Last(peer), Tip(self), theirs) != []
    ensures SendLog(Ordered, self, peer, log, slots).accepted == [false] && KeptBy(Ordered, self, peer, log, slots) == []
  {
    PacketSide(Ordered, self, peer, mine, theirs, true, log, slots);
    SideJudged(Ordered, self, peer, mine, theirs, true, log, slots);
    QueueOrderly(Ordered, self, peer, mine, theirs, true);
    OneRejected(SettingOf(Ordered, self, peer, slots), GateOf(Last(self), |peer| - 1), log, SendLog(Ordered, self, peer, log, slots).accepted);
  }

  lemma OneRejected(x: Setting, g: Gate, log: seq<seq<Message<Msg>>>, accepted: seq<bool>)
    requires |log| == 1 && Judged(x, g, log, accepted) && !AcceptedUnlessEmpty(log, accepted)
    ensures accepted == [false] && Kept(x, g, log) == []
  {
    assert log[..0] == [];
    assert |Bodies(log[0])| == |log[0]|;
  }

  /** The packet due from the source is one the relayer gives up, and the source has a packet to receive. */
  ghost predicate Blocked(n: Net) {
    && OpenOrdered(n) && |Last(n.dst).delivered| < |Last(n.src).sent| && |Last(n.src).delivered| < |Last(n.dst).sent|
    && Lapsed(Last(n.src), Tip(n.dst), |Last(n.dst).delivered| + 1)
  }

  /** Packet `t`, which the source waits for, is one the relayer still relays. */
  ghost predicate StillLive(n: Net, t: nat)
    requires n.src != [] && n.dst != []
  {
    !Lapsed(Last(n.dst), Tip(n.src), t)
  }

  function Due(e: End): nat { |e.delivered| + 1 }

  lemma LapsedStays(a: End, b: End, seen: Moment, late: Moment, s: nat)
    requires Evolves(a, b) && s <= |a.sent| && seen.height <= late.height && seen.time <= late.time
    ensures Lapsed(a, seen, s) ==> Lapsed(b, late, s)
  {
    DeadlineStable(a, b, s);
  }

  /** Nothing has been delivered or timed out on either end. */
  ghost predicate Unmoved(e: End, e': End) {
    e'.delivered == e.delivered && e'.timedOut == e.timedOut && e'.open == e.open && e.sent <= e'.sent
  }

  /** A blocked phase whose source queue fits one transaction does nothing. */
  lemma BlockedPhase(n: Net, p: Plan)
    requires Blocked(n) && PacketPlan(n, p) && |p.srcLog| == 1 && StillLive(Built(n, p), Due(Last(n.src)))
    ensures Unmoved(Last(n.src), Last(After(n, p).src)) && Unmoved(Last(n.dst), Last(After(n, p).dst))
  {
    var m := Built(n, p);
    OrderedPicks(n, p);
    BuiltEnds(n, p);
    BuiltRises(n, p);
    PhasePending(n, p);
    DeadIsNext(n.order, Last(m.src), Last(m.dst), Tip(m.dst), Mine(n, p));
    DeadIsNext(n.order, Last(m.dst), Last(m.src), Tip(m.src), Theirs(n, p));
    LiveDeadMembers(Last(m.src), Tip(m.dst), Mine(n, p));
    LiveDeadMembers(Last(m.dst), Tip(m.src), Theirs(n, p));
    var s, t := |Last(n.dst).delivered| + 1, |Last(n.src).delivered| + 1;
    assert s in Mine(n, p) && s in DeadMine(n, p) && t in Theirs(n, p) && t in LiveTheirs(n, p);
    TogetherRejected(n, p);
    PhaseCarries(n, p);
    assert LiveMine(n, p) == [] && DeadTheirs(n, p) == [];
    NoMembers(RecvsIn(DstKept(n, p)));
    NoMembers(TimeoutsIn(DstKept(n, p)));
  }

  lemma BuiltRises(n: Net, p: Plan)
    requires n.src != [] && n.dst != []
    ensures Tip(n.src).height <= Tip(Built(n, p).src).height && Tip(n.src).time <= Tip(Built(n, p).src).time
    ensures Tip(n.dst).height <= Tip(Built(n, p).dst).height && Tip(n.dst).time <= Tip(Built(n, p).dst).time
  {
  }

  /** What is live in the end was live before. */
  lemma LiveBefore(y: Net, z: Net, t: nat)
    requires y.src != [] && y.dst != [] && Extends(y, z) && Inv(z) && t <= |Last(y.dst).sent| && StillLive(z, t)
    ensures StillLive(y, t)
  {
    Later(z.order, y.src, z.src);
    Later(z.order, y.dst, z.dst);
    LapsedStays(Last(y.dst), Last(z.dst), Tip(y.src), Tip(z.src), t);
  }

  lemma StaysBlocked(n: Net, z: Net)
    requires Blocked(n) && Inv(z) && z.order == n.order && Extends(n, z)
    requires Unmoved(Last(n.src), Last(z.src)) && Unmoved(Last(n.dst), Last(z.dst))
    ensures Blocked(z)
  {
    Later(z.order, n.src, z.src);
    Later(z.order, n.dst, z.dst);
    LapsedStays(Last(n.src), Last(z.src), Tip(n.dst), Tip(z.dst), Due(Last(n.dst)));
  }

  lemma UnmovedTrans(a: End, b: End, c: End, d: End)
    requires Unmoved(a, b) && Unmoved(b, c) && Unmoved(c, d)
    ensures Unmoved(a, d)
  {
  }

  lemma PassUnmoved(n: Net, pass: Pass)
    requires Blocked(n) && IsPass(n, pass) && |pass.packets.srcLog| == 1 && StillLive(Done(n, pass), Due(Last(n.src)))
    ensures Unmoved(Last(n.src), Last(Done(n, pass).src)) && Unmoved(Last(n.dst), Last(Done(n, pass).dst))
  {
    var g, h, c := Grown(n, pass), Halfway(n, pass), Done(n, pass);
    PassKeepsInv(n, pass);
    PassExtends(n, pass);
    PhaseExtends(g, pass.packets);
    ExtendsTrans(Built(g, pass.packets), h, c);
    GrowKeeps(n, pass.grow);
    StaysBlocked(n, g);
    BuiltEnds(g, pass.packets);
    LiveBefore(Built(g, pass.packets), c, Due(Last(n.src)));
    BlockedPhase(g, pass.packets);
    AckPhaseKeeps(h, pass.acks);
    UnmovedTrans(Last(n.src), Last(g.src), Last(h.src), Last(c.src));
    UnmovedTrans(Last(n.dst), Last(g.dst), Last(h.dst), Last(c.dst));
  }

  ghost predicate SourceInOne(passes: seq<Pass>) {
    forall pass :: pass in passes ==> |pass.packets.srcLog| == 1
  }

  /**
    A blocked channel stays blocked, however many passes follow, until the packet that the
    source waits for expires too: nothing is delivered or timed out in either direction.
   */
  lemma {:induction false} BlockedRun(n: Net, passes: seq<Pass>)
    requires Blocked(n) && ArePasses(n, passes) && SourceInOne(passes) && StillLive(Final(n, passes), Due(Last(n.src)))
    ensures Blocked(Final(n, passes))
    ensures Unmoved(Last(n.src), Last(Final(n, passes).src)) && Unmoved(Last(n.dst), Last(Final(n, passes).dst))
    decreases |passes|
  {
    if passes != [] {
      var front, pass := passes[..|passes| - 1], passes[|passes| - 1];
      var y := Final(n, front);
      LiveEarlier(n, front, pass);
      BlockedRun(n, front);
      BlockedAgain(n, y, pass);
    }
  }

  lemma LiveEarlier(n: Net, front: seq<Pass>, pass: Pass)
    requires Blocked(n) && ArePasses(n, front) && IsPass(Final(n, front), pass)
    requires StillLive(Done(Final(n, front), pass), Due(Last(n.src)))
    ensures StillLive(Final(n, front), Due(Last(n.src)))
  {
    var y := Final(n, front);
    PassesKeepInv(n, front);
    PassKeepsInv(y, pass);
    PassExtends(y, pass);
    PassesExtend(n, front);
    Later(n.order, n.dst, y.dst);
    LiveBefore(y, Done(y, pass), Due(Last(n.src)));
  }

  lemma BlockedAgain(n: Net, y: Net, pass: Pass)
    requires n.src != [] && n.dst != [] && Blocked(y) && Unmoved(Last(n.src), Last(y.src)) && Unmoved(Last(n.dst), Last(y.dst))
    requires IsPass(y, pass) && |pass.packets.srcLog| == 1 && StillLive(Done(y, pass), Due(Last(n.src)))
    ensures Blocked(Done(y, pass))
    ensures Unmoved(Last(n.src), Last(Done(y, pass).src)) && Unmoved(Last(n.dst), Last(Done(y, pass).dst))
  {
    PassKeepsInv(y, pass);
    PassExtends(y, pass);
    PassUnmoved(y, pass);
    StaysBlocked(y, Done(y, pass));
  }

  // ---- A run that gets there -------------------------------------------------------------------

  /** A packet of the source with timestamp 5, one of the destination with none, and a clock past 5. */
  const CROSSED: seq<Step> :=
    [Step(true, 0, SendTo(Deadline(0, 5))), Step(false, 0, SendTo(Deadline(1000, 0))), Step(false, 6, Nothing)]

  lemma CrossedRun()
    ensures Blocked(Run(Ordered, CROSSED)) && StillLive(Run(Ordered, CROSSED), 1)
  {
    var start, d, f := Net(Ordered, [NEW_END], [NEW_END]), Deadline(0, 5), Deadline(1000, 0);
    var a, b := NEW_END.(sent := [d], commitments := {1}), NEW_END.(sent := [f], commitments := {1});
    assert Begin(NEW_END, 0) == NEW_END && MaySend(NEW_END, [NEW_END], d) && MaySend(NEW_END, [NEW_END, a], f);
    assert NEW_END.sent + [d] == [d] && NEW_END.sent + [f] == [f] && NEW_END.commitments + {1} == {1};
    assert SendPacket(NEW_END, [NEW_END], d) == a && SendPacket(NEW_END, [NEW_END, a], f) == b;
    var one, two := RunFrom(start, CROSSED[..1]), RunFrom(start, CROSSED[..2]);
    assert CROSSED[..1][..0] == [] && RunFrom(start, []) == start;
    assert one == Take(start, CROSSED[0]) && one.src == [NEW_END, a] && one.dst == [NEW_END];
    assert CROSSED[..2][..1] == CROSSED[..1];
    assert two == Take(one, CROSSED[1]) && two.src == [NEW_END, a] && two.dst == [NEW_END, b];
    assert Run(Ordered, CROSSED) == Take(two, CROSSED[2]);
    RunKeeps(Ordered, CROSSED);
  }
}
