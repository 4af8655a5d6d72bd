/**
  Worker iterations on an unordered channel: one iteration delivers everything that is
  pending and leaves nothing outstanding, if and only if every packet is in a block before it
  expires; and what it leaves otherwise.
 */
module UnorderedRounds {
  import opened Packets
  import opened Batching
  import opened Relay
  import opened Rounds
  import opened PacketRounds
  import opened PacketPhases
  import opened Passes

  // ---- The packet phase ---------------------------------------------------------------

  /** An unordered channel, open at both ends. */
  ghost predicate OpenUnordered(n: Net) {
    Inv(n) && n.order.Unordered? && Last(n.src).open && Last(n.dst).open
  }

  /**
    The packet phase, whatever expires on the way: either chain carries out exactly the
    messages of the batches it takes, and only empty batches are rejected if and only if every
    batch is in time.
   */
  lemma UnorderedPackets(n: Net, p: Plan)
    requires OpenUnordered(n) && PacketPlan(n, p)
    ensures OpenUnordered(After(n, p))
    ensures Carried(Unordered, Last(n.src), Last(After(n, p).src), SrcKept(n, p))
    ensures Carried(Unordered, Last(n.dst), Last(After(n, p).dst), DstKept(n, p))
    ensures OnlyEmptyRejected(n, p) <==> PhaseInTime(n, p)
  {
    PhaseCarries(n, p);
    PhaseJudged(n, p);
    PhaseKeepsInv(n, p);
  }

  // ---- The acknowledgement phase --------------------------------------------------------

  /** What an acknowledgement phase does to one end whose peer wrote `written`. */
  ghost predicate Settled(e: End, e': End, written: set<nat>) {
    && e'.commitments == e.commitments - written && e'.delivered == e.delivered && e'.timedOut == e.timedOut
    && e'.sent == e.sent && e'.open == e.open && e'.acks == e.acks && e'.receipts == e.receipts
  }

  lemma AckQueueEffect(self: End, at: nat, peer: seq<End>, q: seq<nat>)
    requires peer != [] && self.open && NoDup(q)
    requires forall s :: s in q <==> s in Last(peer).acks && s in self.commitments
    ensures var r := ExecTx(Unordered, self, at, peer, AckMsgs(peer, q));
            r.Some? && Settled(self, r.value, Last(peer).acks)
  {
    var h := |peer| - 1;
    assert self.commitments - SetOf(q) == self.commitments - Last(peer).acks;
    if q == [] {
      assert Acks(q, h) == [];
    } else {
      assert Acks(q, h) != [];
      UpdateFirst(Unordered, self, at, peer, h, Acks(q, h));
      AckQueue(self.(heights := self.heights + {h}), at, peer, h, q);
    }
  }

  lemma AcksOnOneChain(self: seq<End>, peer: seq<End>, q: seq<nat>, log: seq<seq<Message<Msg>>>, slots: nat -> Slot)
    requires self != [] && peer != [] && Last(self).open && NoDup(q) && Bodies(Flatten(log)) == AckMsgs(peer, q)
    requires forall s :: s in q <==> s in Last(peer).acks && s in Last(self).commitments
    ensures var r := SendLog(Unordered, self, peer, log, slots);
            AcceptedUnlessEmpty(log, r.accepted) && Settled(Last(self), Last(r.chain), Last(peer).acks)
  {
    var late := Tip(SendLog(Unordered, self, peer, log, slots).chain);
    var e := Last(self).(time := late.time);
    AckQueueEffect(e, late.height, peer, q);
    QueueIsSent(Unordered, self, peer, log, slots, AckMsgs(peer, q),
                ExecTx(Unordered, e, late.height, peer, AckMsgs(peer, q)).value);
  }

  /** The acknowledgement phase clears every commitment whose acknowledgement was written. */
  lemma UnorderedAcks(n: Net, p: Plan)
    requires OpenUnordered(n) && AckPlan(n, p)
    ensures OpenUnordered(After(n, p)) && OnlyEmptyRejected(n, p)
    ensures Settled(Last(n.src), Last(After(n, p).src), Last(n.dst).acks)
    ensures Settled(Last(n.dst), Last(After(n, p).dst), Last(n.src).acks)
  {
    var q, m := Asked(n, p), Built(n, p);
    BuiltEnds(n, p);
    PendingAckMembers(Last(q.src), p.dstList, Last(q.dst).acks);
    PendingAckMembers(Last(q.dst), p.srcList, Last(q.src).acks);
    AcksOnOneChain(m.src, m.dst, OwedSrc(n, p), p.srcLog, p.srcSlots);
    AcksOnOneChain(m.dst, m.src, OwedDst(n, p), p.dstLog, p.dstSlots);
    PhaseKeepsInv(n, p);
  }

  // ---- The iteration ------------------------------------------------------------------------

  /** What is outstanding after an iteration: the pending packets that were neither delivered nor timed out. */
  lemma Outstanding(e: End, f: End, q: seq<nat>, keptHere: seq<Msg>, keptThere: seq<Msg>, e': End, f': End, e'': End)
    requires ReceiverOk(Unordered, f) && (forall s :: s in q <==> s in e.commitments && s !in f.receipts)
    requires Carried(Unordered, e, e', keptHere) && Carried(Unordered, f, f', keptThere) && Settled(e', e'', f'.acks)
    ensures forall s :: s in e''.commitments <==> s in q && s !in TimeoutsIn(keptHere) && s !in RecvsIn(keptThere)
  {
  }

  /** Nothing is outstanding on either chain. */
  ghost predicate Clear(n: Net)
    requires n.src != [] && n.dst != []
  {
    Last(n.src).commitments == {} && Last(n.dst).commitments == {}
  }

  /** The pending packets of either chain, as sets. */
  lemma PendingSets(n: Net, p: Plan)
    requires OpenUnordered(n) && PacketPlan(n, p)
    ensures forall s :: s in Mine(n, p) <==> s in Last(n.src).commitments && s !in Last(n.dst).receipts
    ensures forall s :: s in Theirs(n, p) <==> s in Last(n.dst).commitments && s !in Last(n.src).receipts
    ensures NoDup(Mine(n, p)) && NoDup(Theirs(n, p))
  {
    var q := Asked(n, p);
    BuiltEnds(n, p);
    PendingMembers(Last(q.dst), p.srcList, Last(q.src).commitments);
    PendingMembers(Last(q.src), p.dstList, Last(q.dst).commitments);
  }

  /**
    One iteration on an unordered channel, for every way the stores may list, the queues may be
    cut and the blocks may fall: exactly the packets of the batches that were taken are delivered
    or timed out, once each, and what stays outstanding are the other pending ones.
   */
  lemma UnorderedIteration(n: Net, packets: Plan, acks: Plan)
    requires OpenUnordered(n) && PacketPlan(n, packets) && AckPlan(After(n, packets), acks)
    ensures var n' := After(After(n, packets), acks);
            && OpenUnordered(n') && OnlyEmptyRejected(After(n, packets), acks)
            && Last(n'.dst).delivered == Last(n.dst).delivered + RecvsIn(DstKept(n, packets))
            && Last(n'.src).delivered == Last(n.src).delivered + RecvsIn(SrcKept(n, packets))
            && Last(n'.src).timedOut == Last(n.src).timedOut + TimeoutsIn(SrcKept(n, packets))
            && Last(n'.dst).timedOut == Last(n.dst).timedOut + TimeoutsIn(DstKept(n, packets))
            && Last(n'.src).sent == Last(n.src).sent && Last(n'.dst).sent == Last(n.dst).sent
  {
    UnorderedPackets(n, packets);
    UnorderedAcks(After(n, packets), acks);
  }

  ghost predicate Left(e: End, q: seq<nat>, timedOut: seq<nat>, received: seq<nat>) {
    forall s :: s in e.commitments <==> s in q && s !in timedOut && s !in received
  }

  lemma IterationLeaves(n: Net, packets: Plan, acks: Plan)
    requires OpenUnordered(n) && PacketPlan(n, packets) && AckPlan(After(n, packets), acks)
    ensures var n' := After(After(n, packets), acks);
            && Left(Last(n'.src), Mine(n, packets), TimeoutsIn(SrcKept(n, packets)), RecvsIn(DstKept(n, packets)))
            && Left(Last(n'.dst), Theirs(n, packets), TimeoutsIn(DstKept(n, packets)), RecvsIn(SrcKept(n, packets)))
  {
    var m := After(n, packets);
    var n' := After(m, acks);
    UnorderedPackets(n, packets);
    UnorderedAcks(m, acks);
    PendingSets(n, packets);
    LastOk(n.order, n.src);
    LastOk(n.order, n.dst);
    Outstanding(Last(n.src), Last(n.dst), Mine(n, packets), SrcKept(n, packets), DstKept(n, packets),
                Last(m.src), Last(m.dst), Last(n'.src));
    Outstanding(Last(n.dst), Last(n.src), Theirs(n, packets), DstKept(n, packets), SrcKept(n, packets),
                Last(m.dst), Last(m.src), Last(n'.dst));
  }

  /** A pending packet is left exactly when it is in neither list. */
  lemma NothingLeft(e: End, sender: End, seen: Moment, q: seq<nat>, timedOut: seq<nat>, received: seq<nat>)
    requires NoDup(q) && Left(e, q, timedOut, received)
    requires (forall s :: s in timedOut ==> s in Dead(sender, seen, q)) && (forall s :: s in received ==> s in Live(sender, seen, q))
    ensures e.commitments == {} <==>
            (forall s :: s in Dead(sender, seen, q) ==> s in timedOut) && (forall s :: s in Live(sender, seen, q) ==> s in received)
  {
    LiveDeadMembers(sender, seen, q);
    if e.commitments == {} {
      forall s | s in Dead(sender, seen, q) || s in Live(sender, seen, q)
        ensures s in timedOut || s in received
      {
        assert s !in e.commitments;
      }
    }
  }

  /** Both chains are clear after an iteration if and only if its packet phase was in time. */
  lemma ClearIff(n: Net, packets: Plan, acks: Plan)
    requires OpenUnordered(n) && PacketPlan(n, packets) && AckPlan(After(n, packets), acks)
    ensures Clear(After(After(n, packets), acks)) <==> PhaseInTime(n, packets)
  {
    var m, n' := Built(n, packets), After(After(n, packets), acks);
    IterationLeaves(n, packets, acks);
    PhaseCarries(n, packets);
    PhaseTakes(n, packets);
    PendingSets(n, packets);
    NothingLeft(Last(n'.src), Last(m.src), Tip(m.dst), Mine(n, packets), TimeoutsIn(SrcKept(n, packets)), RecvsIn(DstKept(n, packets)));
    NothingLeft(Last(n'.dst), Last(m.dst), Tip(m.src), Theirs(n, packets), TimeoutsIn(DstKept(n, packets)), RecvsIn(SrcKept(n, packets)));
  }

  // ---- Many passes ------------------------------------------------------------------------------

  lemma GrownUnordered(n: Net, pass: Pass)
    requires OpenUnordered(n) && IsPass(n, pass)
    ensures OpenUnordered(Grown(n, pass))
  {
    GrowKeeps(n, pass.grow);
    StepsKeep(n, pass.grow);
  }

  /** A pass, after whatever was sent before it. */
  lemma UnorderedPass(n: Net, pass: Pass)
    requires OpenUnordered(n) && IsPass(n, pass)
    ensures OpenUnordered(Done(n, pass)) && OnlyEmptyRejected(Halfway(n, pass), pass.acks)
    ensures Clear(Done(n, pass)) <==> PhaseInTime(Grown(n, pass), pass.packets)
  {
    GrownUnordered(n, pass);
    UnorderedIteration(Grown(n, pass), pass.packets, pass.acks);
    ClearIff(Grown(n, pass), pass.packets, pass.acks);
  }

  /** After every pass both chains are clear if and only if the pass was in time; acknowledgements are never lost. */
  ghost predicate ClearWhenInTime(n: Net, passes: seq<Pass>)
    requires n.src != [] && n.dst != []
    decreases |passes|
  {
    passes == [] ||
    (var front, pass := passes[..|passes| - 1], passes[|passes| - 1];
     && ClearWhenInTime(n, front)
     && (Clear(Final(n, passes)) <==> PhaseInTime(Grown(Final(n, front), pass), pass.packets))
     && OnlyEmptyRejected(Halfway(Final(n, front), pass), pass.acks))
  }

  lemma {:induction false} UnorderedRun(n: Net, passes: seq<Pass>)
    requires OpenUnordered(n) && ArePasses(n, passes)
    ensures OpenUnordered(Final(n, passes)) && ClearWhenInTime(n, passes)
    decreases |passes|
  {
    if passes != [] {
      UnorderedRun(n, passes[..|passes| - 1]);
      UnorderedPass(Final(n, passes[..|passes| - 1]), passes[|passes| - 1]);
    }
  }

  // ---- A packet relayed at its very timestamp ---------------------------------------------------------

  /** A pending packet at its timestamp when the messages are built makes the phase late, however it is cut and sent. */
  lemma RelayedTooLate(n: Net, p: Plan, s: nat)
    requires n.src != [] && n.dst != [] && PacketPlan(n, p) && s in Mine(n, p)
    requires var d, seen := DeadlineOf(Last(n.src), s), Tip(Built(n, p).dst);
             d.timestamp != 0 && seen.time == d.timestamp && (d.height == 0 || seen.height < d.height)
    ensures s in LiveMine(n, p) && !PhaseInTime(n, p)
  {
    var m := Built(n, p);
    BuiltEnds(n, p);
    PhasePending(n, p);
    LiveButExpiredIff(Last(m.src), Tip(m.dst), s);
    LiveDeadMembers(Last(m.src), Tip(m.dst), Mine(n, p));
    BodyIn(m.dst, m.src, Theirs(n, p), Mine(n, p), false);
    UpdateIn(PacketBody(m.dst, m.src, Theirs(n, p), Mine(n, p), false), |m.src| - 1);
    ExpiredIsLate(SettingOf(n.order, m.dst, m.src, p.dstSlots), p.dstLog, s);
  }

  /** One packet with timestamp 5, and a receiver whose clock then shows 5. */
  const AT_TIMESTAMP: seq<Step> := [Step(true, 0, SendTo(Deadline(0, 5))), Step(false, 5, Nothing)]

  lemma TimestampRun()
    ensures var n := Run(Unordered, AT_TIMESTAMP);
            && n.src == [NEW_END, NEW_END.(sent := [Deadline(0, 5)], commitments := {1})]
            && n.dst == [NEW_END, NEW_END.(time := 5)]
  {
    var start := Net(Unordered, [NEW_END], [NEW_END]);
    var one := RunFrom(start, AT_TIMESTAMP[..1]);
    assert AT_TIMESTAMP[..1][..0] == [];
    assert RunFrom(start, []) == start;
    var d := Deadline(0, 5);
    assert Begin(NEW_END, 0) == NEW_END && MaySend(NEW_END, [NEW_END], d);
    assert NEW_END.sent + [d] == [d] && NEW_END.commitments + {1} == {1};
    assert SendPacket(NEW_END, [NEW_END], d) == NEW_END.(sent := [d], commitments := {1});
    assert one == Take(start, AT_TIMESTAMP[0]);
    assert Run(Unordered, AT_TIMESTAMP) == Take(one, AT_TIMESTAMP[1]);
  }

  /** In that run the relayer relays the packet at once, and both chains are not clear after the iteration. */
  lemma TimestampRunIsLate(packets: Plan, acks: Plan)
    requires var n := Run(Unordered, AT_TIMESTAMP);
             && PacketPlan(n, packets) && AckPlan(After(n, packets), acks)
             && packets.before == Pause([], []) && packets.between == Pause([], [])
    ensures var n := Run(Unordered, AT_TIMESTAMP);
            && LiveMine(n, packets) != [] && !OnlyEmptyRejected(n, packets)
            && !Clear(After(After(n, packets), acks))
  {
    var n := Run(Unordered, AT_TIMESTAMP);
    TimestampRun();
    RunKeeps(Unordered, AT_TIMESTAMP);
    PendingSets(n, packets);
    assert 1 in Mine(n, packets);
    RelayedTooLate(n, packets, 1);
    UnorderedPackets(n, packets);
    ClearIff(n, packets, acks);
  }
}
