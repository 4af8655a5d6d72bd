/**
  What the worker of `Worker` achieves, and exactly when it stops: on an unordered channel, and on
  an ordered one without acknowledgement debt, an acknowledgement phase whose queries are
  answered fails if and only if a client update does not fit a transaction.
 */
module Outcomes {
  import opened Types
  import opened Packets
  import opened Batching
  import opened Relay
  import opened Rounds
  import opened PacketRounds
  import opened PacketPhases
  import opened Passes
  import opened UnorderedRounds
  import opened Settling
  import opened RelayRound
  import opened Worker

  // ---- Errors of one phase ------------------------------------------------------------------

  /** A queue with a message starts with an update to the peer's latest height, and that update fits a transaction. */
  predicate Fits(queue: seq<Msg>, peer: seq<End>, l: Limits, size: Msg -> nat)
    requires peer != []
  {
    queue == [] || !UpdateOversized(l, size, |peer| - 1)
  }

  predicate AckUpdatesFit(n: Net, p: Plan, l: Limits, size: Msg -> nat)
    requires n.src != [] && n.dst != []
  {
    var m := Built(n, p);
    Fits(AckMsgs(m.dst, OwedSrc(n, p)), m.dst, l, size) && Fits(AckMsgs(m.src, OwedDst(n, p)), m.src, l, size)
  }

  predicate PacketUpdatesFit(n: Net, p: Plan, l: Limits, size: Msg -> nat)
    requires n.src != [] && n.dst != []
  {
    var m := Built(n, p);
    && Fits(PacketQueue(m.src, m.dst, Mine(n, p), Theirs(n, p), true), m.dst, l, size)
    && Fits(PacketQueue(m.dst, m.src, Theirs(n, p), Mine(n, p), false), m.src, l, size)
  }

  lemma SendsErrorIff(n: Net, p: Plan, l: Limits, size: Msg -> nat, srcQueue: seq<Msg>, dstQueue: seq<Msg>)
    requires n.src != [] && n.dst != [] && Sends(n, p, l, size, srcQueue, dstQueue) && OnlyEmptyRejected(n, p)
    ensures NoRejection(n, p) <==> Fits(srcQueue, Built(n, p).dst, l, size) && Fits(dstQueue, Built(n, p).src, l, size)
  {
    NoErrorIff(p.srcLog, SrcSent(n, p).accepted);
    NoErrorIff(p.dstLog, DstSent(n, p).accepted);
  }

  lemma {:induction false} AcceptedHolds(order: Order, chain: seq<End>, peer: seq<End>, log: seq<seq<Message<Msg>>>, slots: nat -> Slot)
    requires chain != [] && AllAccepted(SendLog(order, chain, peer, log, slots).accepted)
    ensures AcceptedUnlessEmpty(log, SendLog(order, chain, peer, log, slots).accepted)
  {
    if log != [] {
      AcceptedPrefix(order, chain, peer, log, slots);
      AcceptedHolds(order, chain, peer, log[..|log| - 1], slots);
      assert |Bodies(log[|log| - 1])| == |log[|log| - 1]|;
      AcceptedSnoc(log, SendLog(order, chain, peer, log[..|log| - 1], slots).accepted, true);
    }
  }

  /** A packet phase reports no error if and only if it is in time, in order, and its updates fit. */
  lemma PacketErrorIff(n: Net, p: Plan, t: Timing, l: Limits, size: Msg -> nat)
    requires n.src != [] && n.dst != [] && Last(n.src).open && Last(n.dst).open
    requires PacketPhase(n, p, t, l, size) && Reached(t.remote, Mine(n, p), Theirs(n, p))
    ensures NoRejection(n, p) <==> PhaseInTime(n, p) && PhaseOrderly(n, p) && PacketUpdatesFit(n, p, l, size)
  {
    var m := Built(n, p);
    PacketsPlanned(n, p, t, l, size);
    PhaseJudged(n, p);
    if NoRejection(n, p) {
      AcceptedHolds(n.order, m.src, m.dst, p.srcLog, p.srcSlots);
      AcceptedHolds(n.order, m.dst, m.src, p.dstLog, p.dstSlots);
    }
    if OnlyEmptyRejected(n, p) {
      SendsErrorIff(n, p, l, size, PacketQueue(m.src, m.dst, Mine(n, p), Theirs(n, p), true),
                    PacketQueue(m.dst, m.src, Theirs(n, p), Mine(n, p), false));
    }
  }

  /** An acknowledgement phase in which only empty batches are rejected reports no error if and only if its updates fit. */
  lemma AckErrorIff(n: Net, p: Plan, t: Timing, l: Limits, size: Msg -> nat)
    requires n.src != [] && n.dst != [] && AckPhase(n, p, t, l, size)
    requires Reached(t.remote, OwedSrc(n, p), OwedDst(n, p)) && OnlyEmptyRejected(n, p)
    ensures NoRejection(n, p) <==> AckUpdatesFit(n, p, l, size)
  {
    var m := Built(n, p);
    SendsErrorIff(n, p, l, size, AckMsgs(m.dst, OwedSrc(n, p)), AckMsgs(m.src, OwedDst(n, p)));
  }

  // ---- When the worker stops -------------------------------------------------------------------

  /** Nothing stops the worker: no fatal error, all answers for the acknowledgements, and updates that fit. */
  ghost predicate Untroubled(n: Net, pass: Pass, env: Surroundings, l: Limits, size: Msg -> nat)
    requires n.src != [] && n.dst != []
  {
    var g, h := Grown(n, pass), Halfway(n, pass);
    && (env.packets.fatal ==> Reached(env.packets.remote, Mine(g, pass.packets), Theirs(g, pass.packets)) && NoRejection(g, pass.packets))
    && Reached(env.acks.remote, OwedSrc(h, pass.acks), OwedDst(h, pass.acks)) && AckUpdatesFit(h, pass.acks, l, size)
  }

  ghost predicate AllUntroubled(n: Net, passes: seq<Pass>, env: nat -> Surroundings, l: Limits, size: Msg -> nat)
    requires n.src != [] && n.dst != []
    decreases |passes|
  {
    passes == [] ||
    (var front, pass := passes[..|passes| - 1], passes[|passes| - 1];
     AllUntroubled(n, front, env, l, size) && Untroubled(Final(n, front), pass, env(|front|), l, size))
  }

  /** Only idle blocks and new packets come between the passes. */
  ghost predicate AlwaysGrowing(env: nat -> Surroundings) {
    forall k: nat :: Growing(env(k).grow)
  }

  /** Both phases get their answers, and no error ends the pass halfway. */
  ghost predicate Undisturbed(n: Net, pass: Pass, env: Surroundings)
    requires n.src != [] && n.dst != []
  {
    var g, h := Grown(n, pass), Halfway(n, pass);
    && Reached(env.packets.remote, Mine(g, pass.packets), Theirs(g, pass.packets))
    && (env.packets.fatal ==> NoRejection(g, pass.packets))
    && Reached(env.acks.remote, OwedSrc(h, pass.acks), OwedDst(h, pass.acks))
  }

  lemma UndisturbedPass(n: Net, pass: Pass, env: Surroundings, l: Limits, size: Msg -> nat)
    requires n.src != [] && n.dst != [] && Attempted(n, pass, env, l, size) && Growing(env.grow) && Undisturbed(n, pass, env)
    ensures IsPass(n, pass)
  {
    PacketsPlanned(Grown(n, pass), pass.packets, env.packets, l, size);
    AcksPlanned(Halfway(n, pass), pass.acks, env.acks, l, size);
  }

  ghost predicate AllUndisturbed(n: Net, passes: seq<Pass>, env: nat -> Surroundings)
    requires n.src != [] && n.dst != []
    decreases |passes|
  {
    passes == [] ||
    (var front, pass := passes[..|passes| - 1], passes[|passes| - 1];
     AllUndisturbed(n, front, env) && Undisturbed(Final(n, front), pass, env(|front|)))
  }

  /** An undisturbed worker performs passes, so everything proved of passes holds of it. */
  lemma {:induction false} UndisturbedPasses(n: Net, passes: seq<Pass>, env: nat -> Surroundings, l: Limits, size: Msg -> nat)
    requires n.src != [] && n.dst != [] && Followed(n, passes, env, l, size) && AlwaysGrowing(env) && AllUndisturbed(n, passes, env)
    ensures ArePasses(n, passes)
    decreases |passes|
  {
    if passes != [] {
      var front := passes[..|passes| - 1];
      UndisturbedPasses(n, front, env, l, size);
      UndisturbedPass(Final(n, front), passes[|passes| - 1], env(|front|), l, size);
    }
  }

  // ---- Unordered channels ---------------------------------------------------------------------------

  lemma PhaseStaysOpen(n: Net, p: Plan)
    requires OpenUnordered(n) && (PacketPlan(n, p) || AckPlan(n, p) || Idle(p))
    ensures OpenUnordered(After(n, p))
  {
    if PacketPlan(n, p) {
      UnorderedPackets(n, p);
    } else if AckPlan(n, p) {
      UnorderedAcks(n, p);
    } else {
      BuiltEnds(n, p);
      PhaseKeepsInv(n, p);
    }
  }

  lemma GrowsOpen(n: Net, pass: Pass)
    requires OpenUnordered(n) && Growing(pass.grow)
    ensures OpenUnordered(Grown(n, pass))
  {
    GrowKeeps(n, pass.grow);
    StepsKeep(n, pass.grow);
  }

  lemma AttemptStaysOpen(n: Net, pass: Pass)
    requires OpenUnordered(n) && Growing(pass.grow) && IsAttempt(n, pass)
    ensures OpenUnordered(Halfway(n, pass)) && OpenUnordered(Done(n, pass))
  {
    GrowsOpen(n, pass);
    PhaseStaysOpen(Grown(n, pass), pass.packets);
    PhaseStaysOpen(Halfway(n, pass), pass.acks);
  }

  /** The worker goes on after a pass exactly when nothing troubles it. */
  lemma UnorderedGoesOn(n: Net, pass: Pass, env: Surroundings, l: Limits, size: Msg -> nat)
    requires n.src != [] && n.dst != [] && OpenUnordered(Halfway(n, pass)) && Attempted(n, pass, env, l, size)
    ensures GoesOn(n, pass, env) <==> Untroubled(n, pass, env, l, size)
  {
    var h := Halfway(n, pass);
    if !(env.packets.fatal && !PacketsOk(Grown(n, pass), pass.packets, env.packets))
       && Reached(env.acks.remote, OwedSrc(h, pass.acks), OwedDst(h, pass.acks)) {
      AcksPlanned(h, pass.acks, env.acks, l, size);
      UnorderedAcks(h, pass.acks);
      AckErrorIff(h, pass.acks, env.acks, l, size);
    }
  }

  /** After every undisturbed pass both chains are clear if and only if the pass was in time. */
  ghost predicate ClearReport(n: Net, passes: seq<Pass>, env: nat -> Surroundings)
    requires n.src != [] && n.dst != []
    decreases |passes|
  {
    passes == [] ||
    (var front, pass := passes[..|passes| - 1], passes[|passes| - 1];
     && ClearReport(n, front, env)
     && (Undisturbed(Final(n, front), pass, env(|front|)) ==>
           (Clear(Final(n, passes)) <==> PhaseInTime(Grown(Final(n, front), pass), pass.packets))))
  }

  lemma UnorderedTurn(n: Net, pass: Pass, env: Surroundings, l: Limits, size: Msg -> nat)
    requires OpenUnordered(n) && Attempted(n, pass, env, l, size) && Growing(env.grow)
    ensures OpenUnordered(Done(n, pass)) && (GoesOn(n, pass, env) <==> Untroubled(n, pass, env, l, size))
    ensures Undisturbed(n, pass, env) ==> (Clear(Done(n, pass)) <==> PhaseInTime(Grown(n, pass), pass.packets))
  {
    AttemptedIsAttempt(n, pass, env, l, size);
    AttemptStaysOpen(n, pass);
    UnorderedGoesOn(n, pass, env, l, size);
    if Undisturbed(n, pass, env) {
      UndisturbedPass(n, pass, env, l, size);
      UnorderedPass(n, pass);
    }
  }

  /**
    The worker on an unordered channel, whatever fails and expires: it goes on if and only if
    nothing troubles it, and every undisturbed pass leaves both chains clear if and only if it
    was in time.
   */
  lemma {:induction false} UnorderedWorker(n: Net, passes: seq<Pass>, env: nat -> Surroundings, l: Limits, size: Msg -> nat)
    requires OpenUnordered(n) && Followed(n, passes, env, l, size) && AlwaysGrowing(env)
    ensures OpenUnordered(Final(n, passes)) && ClearReport(n, passes, env)
    ensures Healthy(n, passes, env) <==> AllUntroubled(n, passes, env, l, size)
    decreases |passes|
  {
    if passes != [] {
      var front := passes[..|passes| - 1];
      UnorderedWorker(n, front, env, l, size);
      UnorderedTurn(Final(n, front), passes[|passes| - 1], env(|front|), l, size);
    }
  }

  // ---- Ordered channels --------------------------------------------------------------------------------

  lemma SteadyIsBehind(n: Net, p: Plan)
    requires SteadyNet(n) && (PacketPlan(n, p) || Idle(p))
    ensures var h := After(n, p);
            Inv(h) && h.order.Ordered? && Behind(Last(h.src), Last(h.dst)) && Behind(Last(h.dst), Last(h.src))
  {
    if PacketPlan(n, p) {
      PacketsBehind(n, p);
    } else {
      BuiltEnds(n, p);
      PhaseKeepsInv(n, p);
    }
  }

  lemma GrowsSteady(n: Net, pass: Pass)
    requires SteadyNet(n) && Growing(pass.grow)
    ensures SteadyNet(Grown(n, pass))
  {
    var g := Grown(n, pass);
    StepsKeep(n, pass.grow);
    GrowKeeps(n, pass.grow);
    GrewSteady(Last(n.src), Last(n.dst), Last(g.src), Last(g.dst));
    GrewSteady(Last(n.dst), Last(n.src), Last(g.dst), Last(g.src));
  }

  lemma OrderedTurn(n: Net, pass: Pass, env: Surroundings, l: Limits, size: Msg -> nat)
    requires SteadyNet(n) && Attempted(n, pass, env, l, size) && Growing(env.grow)
    ensures GoesOn(n, pass, env) <==> Untroubled(n, pass, env, l, size)
    ensures GoesOn(n, pass, env) ==> SteadyNet(Done(n, pass))
  {
    var h := Halfway(n, pass);
    GrowsSteady(n, pass);
    PacketsPlanned(Grown(n, pass), pass.packets, env.packets, l, size);
    SteadyIsBehind(Grown(n, pass), pass.packets);
    if !(env.packets.fatal && !PacketsOk(Grown(n, pass), pass.packets, env.packets))
       && Reached(env.acks.remote, OwedSrc(h, pass.acks), OwedDst(h, pass.acks)) {
      AcksPlanned(h, pass.acks, env.acks, l, size);
      AcksSteady(h, pass.acks);
      AckErrorIff(h, pass.acks, env.acks, l, size);
    }
  }

  /**
    The worker on an ordered channel without acknowledgement debt, whatever fails, expires or is
    closed: it goes on if and only if nothing troubles it, and as long as it goes on there is no debt.
   */
  lemma {:induction false} OrderedWorker(n: Net, passes: seq<Pass>, env: nat -> Surroundings, l: Limits, size: Msg -> nat)
    requires SteadyNet(n) && Followed(n, passes, env, l, size) && AlwaysGrowing(env)
    ensures Healthy(n, passes, env) <==> AllUntroubled(n, passes, env, l, size)
    ensures Healthy(n, passes, env) ==> SteadyNet(Final(n, passes))
    decreases |passes|
  {
    if passes != [] {
      var front := passes[..|passes| - 1];
      OrderedWorker(n, front, env, l, size);
      if Healthy(n, front, env) {
        OrderedTurn(Final(n, front), passes[|passes| - 1], env(|front|), l, size);
      }
    }
  }

  // ---- A worker that stops although everything was relayed ------------------------------------------------

  /** One packet is sent and received, and its acknowledgement is owed. */
  const ONE_OWED: seq<Step> :=
    [Step(true, 0, SendTo(Deadline(1000, 0))), Step(false, 0, Tx([UpdateClient(1), Recv(1, 1)]))]

  /** A client update that is larger than a transaction. */
  const SMALL_TX := Limits(1, 0)

  function Large(): Msg -> nat { (m: Msg) => 2 }

  lemma OneOwed()
    ensures var n := Run(Unordered, ONE_OWED);
            && OpenUnordered(n) && Last(n.src).commitments == {1} && Last(n.dst).commitments == {} && Last(n.dst).acks == {1}
  {
    var start, d := Net(Unordered, [NEW_END], [NEW_END]), Deadline(1000, 0);
    var a := NEW_END.(sent := [d], commitments := {1});
    assert Begin(NEW_END, 0) == NEW_END && MaySend(NEW_END, [NEW_END], d);
    assert NEW_END.sent + [d] == [d] && NEW_END.commitments + {1} == {1} && SendPacket(NEW_END, [NEW_END], d) == a;
    var one := RunFrom(start, ONE_OWED[..1]);
    assert ONE_OWED[..1][..0] == [] && RunFrom(start, []) == start;
    assert one == Take(start, ONE_OWED[0]) && one.src == [NEW_END, a] && one.dst == [NEW_END];
    var b := NEW_END.(heights := NEW_END.heights + {1});
    var msgs := [UpdateClient(1), Recv(1, 1)];
    assert Exec(Unordered, NEW_END, 1, one.src, msgs[0]) == Some(b);
    assert msgs[1..] == [Recv(1, 1)];
    OneMessage(Unordered, b, 1, one.src, Recv(1, 1));
    assert Run(Unordered, ONE_OWED) == Take(one, ONE_OWED[1]);
    RunKeeps(Unordered, ONE_OWED);
  }

  /** The acknowledgement is relayed and both chains are clear, yet the phase reports an error and the worker stops. */
  lemma OversizedStops(p: Plan, t: Timing)
    requires var n := Run(Unordered, ONE_OWED);
             AckPhase(n, p, t, SMALL_TX, Large()) && Reached(t.remote, OwedSrc(n, p), OwedDst(n, p))
    ensures var n := Run(Unordered, ONE_OWED);
            !AcksOk(n, p, t) && Clear(After(n, p))
  {
    var n := Run(Unordered, ONE_OWED);
    OneOwed();
    AcksPlanned(n, p, t, SMALL_TX, Large());
    UnorderedAcks(n, p);
    OwedSides(n, p);
    assert 1 in OwedSrc(n, p);
    assert |Acks(OwedSrc(n, p), |Built(n, p).dst| - 1)| > 0;
    AckErrorIff(n, p, t, SMALL_TX, Large());
  }

  // ---- A rejected packet does not stop the worker --------------------------------------------------------

  /** A turn on the channel of `AT_TIMESTAMP` that begins at once, with errors that are not fatal. */
  ghost predicate AtTimestamp(n: Net, pass: Pass, env: Surroundings, l: Limits, size: Msg -> nat) {
    && n == Run(Unordered, AT_TIMESTAMP) && Attempted(n, pass, env, l, size)
    && pass.grow == [] && pass.packets.before == Pause([], []) && pass.packets.between == Pause([], [])
    && Reached(env.packets.remote, Mine(n, pass.packets), Theirs(n, pass.packets))
  }

  /** A plan that is carried out at once on that channel. */
  ghost predicate AtOnce(n: Net, p: Plan) {
    n == Run(Unordered, AT_TIMESTAMP) && PacketPlan(n, p) && p.before == Pause([], []) && p.between == Pause([], [])
  }

  lemma TimestampNet(n: Net)
    requires n == Run(Unordered, AT_TIMESTAMP)
    ensures OpenUnordered(n) && Last(n.src).commitments == {1} && Last(n.dst).commitments == {}
    ensures Last(n.src).acks == {} && Last(n.dst).acks == {}
    ensures Last(n.dst).receipts == {} && DeadlineOf(Last(n.src), 1) == Deadline(0, 5) && Last(n.dst).time == 5
  {
    TimestampRun();
    RunKeeps(Unordered, AT_TIMESTAMP);
  }

  lemma TimestampLate(n: Net, p: Plan)
    requires AtOnce(n, p)
    ensures !PhaseInTime(n, p)
  {
    TimestampNet(n);
    PendingSets(n, p);
    assert 1 in Mine(n, p);
    RelayedTooLate(n, p, 1);
  }

  lemma TimestampLive(n: Net, p: Plan)
    requires AtOnce(n, p)
    ensures LiveTheirs(n, p) == [] && forall s :: s in LiveMine(n, p) ==> s == 1
  {
    var m := Built(n, p);
    TimestampNet(n);
    PendingSets(n, p);
    LiveDeadMembers(Last(m.src), Tip(m.dst), Mine(n, p));
    LiveDeadMembers(Last(m.dst), Tip(m.src), Theirs(n, p));
    NoMembers(LiveTheirs(n, p));
  }

  lemma TimestampLoses(n: Net, p: Plan)
    requires AtOnce(n, p)
    ensures RecvsIn(SrcKept(n, p)) == [] && RecvsIn(DstKept(n, p)) == []
  {
    TimestampNet(n);
    TimestampLate(n, p);
    TimestampLive(n, p);
    PhaseCarries(n, p);
    PhaseTakes(n, p);
    NoMembers(RecvsIn(SrcKept(n, p)));
    OnlyLost(LiveMine(n, p), DstKept(n, p), 1);
  }

  /** Nothing is delivered, so no acknowledgement is owed. */
  lemma NothingTaken(n: Net, p: Plan)
    requires AtOnce(n, p)
    ensures Last(After(n, p).src).acks == {} && Last(After(n, p).dst).acks == {}
  {
    TimestampNet(n);
    TimestampLoses(n, p);
    PhaseCarries(n, p);
    assert SetOf([]) == {};
  }

  lemma OnlyLost(live: seq<nat>, kept: seq<Msg>, one: nat)
    requires Loses(live, kept) && (forall s :: s in live ==> s == one) && forall s :: s in RecvsIn(kept) ==> s in live
    ensures RecvsIn(kept) == []
  {
    var s :| s in live && s !in RecvsIn(kept);
    NoMembers(RecvsIn(kept));
  }

  /** The packet is rejected, and the worker goes on unless that error is fatal. */
  lemma RejectedGoesOn(n: Net, pass: Pass, env: Surroundings, l: Limits, size: Msg -> nat)
    requires AtTimestamp(n, pass, env, l, size)
    ensures !NoRejection(n, pass.packets)
    ensures GoesOn(n, pass, env) <==> !env.packets.fatal
  {
    assert Grown(n, pass) == n;
    PacketsPlanned(n, pass.packets, env.packets, l, size);
    TimestampNet(n);
    TimestampLate(n, pass.packets);
    PacketErrorIff(n, pass.packets, env.packets, l, size);
    if !env.packets.fatal {
      UnorderedPackets(n, pass.packets);
      NothingTaken(n, pass.packets);
      NothingToAcknowledge(n, pass, env, l, size);
    }
  }

  /** With no acknowledgement written a turn that is not stopped by its packets goes on. */
  lemma NothingToAcknowledge(n: Net, pass: Pass, env: Surroundings, l: Limits, size: Msg -> nat)
    requires n.src != [] && n.dst != [] && Attempted(n, pass, env, l, size) && !env.packets.fatal && OpenUnordered(Halfway(n, pass))
    requires Last(Halfway(n, pass).src).acks == {} && Last(Halfway(n, pass).dst).acks == {}
    ensures GoesOn(n, pass, env)
  {
    var h := Halfway(n, pass);
    NoneOwed(h, pass.acks);
    UnorderedGoesOn(n, pass, env, l, size);
    NothingOwedNothingSent(Built(h, pass.acks));
  }

  lemma NoneOwed(n: Net, p: Plan)
    requires n.src != [] && n.dst != [] && Last(n.src).acks == {} && Last(n.dst).acks == {}
    requires Lists(p.srcList, Last(Asked(n, p).src).acks) && Lists(p.dstList, Last(Asked(n, p).dst).acks)
    ensures OwedSrc(n, p) == [] && OwedDst(n, p) == []
  {
    BuiltEnds(n, p);
    NoMembers(p.srcList);
    NoMembers(p.dstList);
  }

  lemma NothingOwedNothingSent(m: Net)
    requires m.src != [] && m.dst != []
    ensures AckMsgs(m.dst, []) == [] && AckMsgs(m.src, []) == []
  {
    assert Acks([], |m.dst| - 1) == [] && Acks([], |m.src| - 1) == [];
  }
}
