/**
  The worker of one channel (deps/relayer/relayer/strategies.go): its loop over packet and
  acknowledgement phases, run against two chains that accept or reject every batch by the
  packet rules.  When blocks come, what applications send between the passes, in which order
  stores list and which remote queries fail is up to the environment.
 */
module Worker {
  import opened Packets
  import opened Batching
  import opened Relay
  import opened Rounds
  import opened Passes
  import opened RelayRound

  /** A store query: the members in an order of the store's own. */
  method ListStore(members: set<nat>) returns (q: seq<nat>)
    ensures Lists(q, members)
  {
    q := [];
    var left := members;
    while left != {}
      invariant left <= members && Lists(q, members - left)
      decreases left
    {
      var s :| s in left;
      assert s !in q;
      NoDupAppend(q, s);
      assert members - (left - {s}) == (members - left) + {s};
      q, left := q + [s], left - {s};
    }
    assert members - left == members;
  }

  /** When the blocks of one phase come, which of its queries are answered, and whether an error of it is one that ends the worker. */
  datatype Timing = Timing(before: Pause, between: Pause, srcSlots: nat -> Slot, dstSlots: nat -> Slot, remote: Remote, fatal: bool)

  /** What the environment does around and during one pass. */
  datatype Surroundings = Surroundings(grow: seq<Step>, packets: Timing, acks: Timing)

  // ---- The phases ---------------------------------------------------------------------------

  /** Every sent packet has a deadline, so the provider never refuses one that is pending. */
  lemma PendingDated(a: seq<End>, b: End, order: Order, listing: seq<nat>, e: End)
    requires History(order, a) && Lists(listing, Last(a).commitments) && SameEnd(Last(a), e)
    ensures Dated(e, Pending(order, b, listing))
  {
    LastOk(order, a);
    forall s | s in Pending(order, b, listing)
      ensures DeadlineOf(e, s) != NEVER
    {
      PendingListed(order, b, listing, s);
      assert s in Last(a).commitments;
      assert Last(a).sent[s - 1] != NEVER;
    }
  }

  lemma PendingListed(order: Order, b: End, listing: seq<nat>, s: nat)
    requires s in Pending(order, b, listing)
    ensures s in listing
  {
    FilterMembers(listing, (t: nat) => IsUnreceived(order, b, t), s);
  }

  lemma BothDated(n: Net, p: Plan)
    requires Inv(n) && Lists(p.srcList, Last(Asked(n, p).src).commitments) && Lists(p.dstList, Last(Asked(n, p).dst).commitments)
    ensures Dated(Last(Built(n, p).src), Mine(n, p)) && Dated(Last(Built(n, p).dst), Theirs(n, p))
  {
    var q, m := Asked(n, p), Built(n, p);
    BuiltKeeps(n, p);
    PendingDated(q.src, Last(q.dst), n.order, p.srcList, Last(m.src));
    PendingDated(q.dst, Last(q.src), n.order, p.dstList, Last(m.dst));
  }

  /** The plan keeps to this timing. */
  ghost predicate AskedFor(asked: Plan, t: Timing) {
    && asked.before == t.before && asked.between == t.between && asked.srcSlots == t.srcSlots && asked.dstSlots == t.dstSlots
  }

  method AskPackets(n: Net, t: Timing) returns (asked: Plan)
    requires n.src != [] && n.dst != []
    ensures AskedFor(asked, t) && Idle(asked)
    ensures Lists(asked.srcList, Last(Asked(n, asked).src).commitments) && Lists(asked.dstList, Last(Asked(n, asked).dst).commitments)
  {
    var q := Rest(n, t.before);
    var srcList := ListStore(Last(q.src).commitments);
    var dstList := ListStore(Last(q.dst).commitments);
    asked := Plan(t.before, srcList, dstList, t.between, [], [], t.srcSlots, t.dstSlots);
  }

  method AskAcks(n: Net, t: Timing) returns (asked: Plan)
    requires n.src != [] && n.dst != []
    ensures AskedFor(asked, t) && Idle(asked)
    ensures Lists(asked.srcList, Last(Asked(n, asked).src).acks) && Lists(asked.dstList, Last(Asked(n, asked).dst).acks)
  {
    var q := Rest(n, t.before);
    var srcList := ListStore(Last(q.src).acks);
    var dstList := ListStore(Last(q.dst).acks);
    asked := Plan(t.before, srcList, dstList, t.between, [], [], t.srcSlots, t.dstSlots);
  }

  /** A phase with nothing to relay ends at once; any other needs all its answers. */
  predicate Reached(remote: Remote, mine: seq<nat>, theirs: seq<nat>) {
    (mine == [] && theirs == []) || Answered(remote, mine, theirs)
  }

  /** There is something to relay, and an answer for it is missing. */
  ghost predicate Unanswered(remote: Remote, mine: seq<nat>, theirs: seq<nat>) {
    && (mine != [] || theirs != [])
    && (!remote.heights || !remote.headers || (exists s :: s in mine && !remote.mine(s)) || (exists s :: s in theirs && !remote.theirs(s)))
  }

  lemma UnansweredIff(remote: Remote, mine: seq<nat>, theirs: seq<nat>)
    ensures Unanswered(remote, mine, theirs) <==> !Reached(remote, mine, theirs)
  {
  }

  /** Both queues were sent, cut greedily, and an empty batch means an oversized update. */
  ghost predicate Sends(n: Net, p: Plan, l: Limits, size: Msg -> nat, srcQueue: seq<Msg>, dstQueue: seq<Msg>)
    requires n.src != [] && n.dst != []
  {
    var m := Built(n, p);
    && IsSend(n.order, m.src, m.dst, p.srcSlots, srcQueue, l, size, p.srcLog, !AllAccepted(SrcSent(n, p).accepted))
    && IsSend(n.order, m.dst, m.src, p.dstSlots, dstQueue, l, size, p.dstLog, !AllAccepted(DstSent(n, p).accepted))
  }

  lemma SendsNothing(n: Net, p: Plan, l: Limits, size: Msg -> nat)
    requires n.src != [] && n.dst != [] && Idle(p)
    ensures Sends(n, p, l, size, [], []) && NoRejection(n, p)
  {
    assert Bodies(Flatten(p.srcLog)) == [];
  }

  // ---- The packet phase ---------------------------------------------------------------------

  ghost predicate PacketQueuesSent(n: Net, p: Plan, l: Limits, size: Msg -> nat)
    requires n.src != [] && n.dst != []
  {
    var m := Built(n, p);
    Sends(n, p, l, size, PacketQueue(m.src, m.dst, Mine(n, p), Theirs(n, p), true), PacketQueue(m.dst, m.src, Theirs(n, p), Mine(n, p), false))
  }

  /** What a packet phase does: it relays what is pending, or breaks off before anything is sent. */
  ghost predicate PacketPhase(n: Net, p: Plan, t: Timing, l: Limits, size: Msg -> nat)
    requires n.src != [] && n.dst != []
  {
    && AskedFor(p, t)
    && Lists(p.srcList, Last(Asked(n, p).src).commitments) && Lists(p.dstList, Last(Asked(n, p).dst).commitments)
    && if Reached(t.remote, Mine(n, p), Theirs(n, p)) then PacketQueuesSent(n, p, l, size) else Idle(p)
  }

  /** All answers came, and no batch was rejected. */
  ghost predicate PacketsOk(n: Net, p: Plan, t: Timing)
    requires n.src != [] && n.dst != []
  {
    Reached(t.remote, Mine(n, p), Theirs(n, p)) && NoRejection(n, p)
  }

  /** `relayUnrelayedPackets`: only a fatal error ends the worker, any other is logged. */
  method RelayUnrelayedPackets(n: Net, t: Timing, l: Limits, size: Msg -> nat) returns (p: Plan, ok: bool)
    requires Inv(n)
    ensures PacketPhase(n, p, t, l, size)
    ensures !t.fatal ==> ok
    ensures t.fatal ==> (ok <==> Reached(t.remote, Mine(n, p), Theirs(n, p)) && NoRejection(n, p))
    ensures Mine(n, p) == [] && Theirs(n, p) == [] ==> ok && Idle(p)
    ensures Unanswered(t.remote, Mine(n, p), Theirs(n, p)) ==> Idle(p) && (ok <==> !t.fatal)
  {
    var asked := AskPackets(n, t);
    var mine, theirs := Mine(n, asked), Theirs(n, asked);
    UnansweredIff(t.remote, mine, theirs);
    if |mine| == 0 && |theirs| == 0 {
      NoPackets(n, asked, l, size);
      return asked, true;
    }
    BothDated(n, asked);
    var sent, srcLog, srcErr, dstLog, dstErr :=
      RelayPackets(Built(n, asked), mine, theirs, t.srcSlots, t.dstSlots, l, size, t.remote);
    PacketsSent(n, asked, t, l, size, sent, srcLog, srcErr, dstLog, dstErr);
    p := asked.(srcLog := srcLog, dstLog := dstLog);
    ok := (sent && !srcErr && !dstErr) || !t.fatal;
  }

  lemma NoPackets(n: Net, p: Plan, l: Limits, size: Msg -> nat)
    requires n.src != [] && n.dst != [] && Idle(p) && Mine(n, p) == [] && Theirs(n, p) == []
    ensures PacketQueuesSent(n, p, l, size) && NoRejection(n, p)
  {
    SendsNothing(n, p, l, size);
  }

  lemma PacketsSent(n: Net, asked: Plan, t: Timing, l: Limits, size: Msg -> nat,
                    sent: bool, srcLog: seq<seq<Message<Msg>>>, srcErr: bool, dstLog: seq<seq<Message<Msg>>>, dstErr: bool)
    requires n.src != [] && n.dst != [] && AskedFor(asked, t)
    requires var m := Built(n, asked);
             sent ==>
               && IsSend(n.order, m.src, m.dst, asked.srcSlots, PacketQueue(m.src, m.dst, Mine(n, asked), Theirs(n, asked), true),
                         l, size, srcLog, srcErr)
               && IsSend(n.order, m.dst, m.src, asked.dstSlots, PacketQueue(m.dst, m.src, Theirs(n, asked), Mine(n, asked), false),
                         l, size, dstLog, dstErr)
    ensures var p := asked.(srcLog := srcLog, dstLog := dstLog);
            && AskedFor(p, t) && Mine(n, p) == Mine(n, asked) && Theirs(n, p) == Theirs(n, asked) && Asked(n, p) == Asked(n, asked)
            && (sent ==> PacketQueuesSent(n, p, l, size) && (NoRejection(n, p) <==> !srcErr && !dstErr))
  {
  }

  /** A phase that is reached is one of those the theorems about packets are about. */
  lemma PacketsPlanned(n: Net, p: Plan, t: Timing, l: Limits, size: Msg -> nat)
    requires n.src != [] && n.dst != [] && PacketPhase(n, p, t, l, size)
    ensures if Reached(t.remote, Mine(n, p), Theirs(n, p)) then PacketPlan(n, p) else Idle(p)
  {
  }

  // ---- The acknowledgement phase ----------------------------------------------------------------

  ghost predicate AckQueuesSent(n: Net, p: Plan, l: Limits, size: Msg -> nat)
    requires n.src != [] && n.dst != []
  {
    Sends(n, p, l, size, AckMsgs(Built(n, p).dst, OwedSrc(n, p)), AckMsgs(Built(n, p).src, OwedDst(n, p)))
  }

  ghost predicate AckPhase(n: Net, p: Plan, t: Timing, l: Limits, size: Msg -> nat)
    requires n.src != [] && n.dst != []
  {
    && AskedFor(p, t)
    && Lists(p.srcList, Last(Asked(n, p).src).acks) && Lists(p.dstList, Last(Asked(n, p).dst).acks)
    && if Reached(t.remote, OwedSrc(n, p), OwedDst(n, p)) then AckQueuesSent(n, p, l, size) else Idle(p)
  }

  /** The phase reports no error. */
  ghost predicate AcksOk(n: Net, p: Plan, t: Timing)
    requires n.src != [] && n.dst != []
  {
    Reached(t.remote, OwedSrc(n, p), OwedDst(n, p)) && NoRejection(n, p)
  }

  /** `relayUnrelayedAcks`: any error ends the worker. */
  method RelayUnrelayedAcks(n: Net, t: Timing, l: Limits, size: Msg -> nat) returns (p: Plan, ok: bool)
    requires n.src != [] && n.dst != []
    ensures AckPhase(n, p, t, l, size)
    ensures ok <==> Reached(t.remote, OwedSrc(n, p), OwedDst(n, p)) && NoRejection(n, p)
    ensures OwedSrc(n, p) == [] && OwedDst(n, p) == [] ==> ok && Idle(p)
    ensures Unanswered(t.remote, OwedSrc(n, p), OwedDst(n, p)) ==> Idle(p) && !ok
  {
    var asked := AskAcks(n, t);
    var owedSrc, owedDst := OwedSrc(n, asked), OwedDst(n, asked);
    UnansweredIff(t.remote, owedSrc, owedDst);
    if |owedSrc| == 0 && |owedDst| == 0 {
      NoAcks(n, asked, l, size);
      return asked, true;
    }
    var sent, srcLog, srcErr, dstLog, dstErr :=
      RelayAcknowledgements(Built(n, asked), owedSrc, owedDst, t.srcSlots, t.dstSlots, l, size, t.remote);
    AcksSent(n, asked, t, l, size, sent, srcLog, srcErr, dstLog, dstErr);
    p, ok := asked.(srcLog := srcLog, dstLog := dstLog), sent && !srcErr && !dstErr;
  }

  lemma NoAcks(n: Net, p: Plan, l: Limits, size: Msg -> nat)
    requires n.src != [] && n.dst != [] && Idle(p) && OwedSrc(n, p) == [] && OwedDst(n, p) == []
    ensures AckQueuesSent(n, p, l, size) && NoRejection(n, p)
  {
    SendsNothing(n, p, l, size);
    assert Acks([], |Built(n, p).dst| - 1) == [] && Acks([], |Built(n, p).src| - 1) == [];
  }

  lemma AcksSent(n: Net, asked: Plan, t: Timing, l: Limits, size: Msg -> nat,
                 sent: bool, srcLog: seq<seq<Message<Msg>>>, srcErr: bool, dstLog: seq<seq<Message<Msg>>>, dstErr: bool)
    requires n.src != [] && n.dst != [] && AskedFor(asked, t)
    requires var m := Built(n, asked);
             sent ==>
               && IsSend(n.order, m.src, m.dst, asked.srcSlots, AckMsgs(m.dst, OwedSrc(n, asked)), l, size, srcLog, srcErr)
               && IsSend(n.order, m.dst, m.src, asked.dstSlots, AckMsgs(m.src, OwedDst(n, asked)), l, size, dstLog, dstErr)
    ensures var p := asked.(srcLog := srcLog, dstLog := dstLog);
            && AskedFor(p, t) && OwedSrc(n, p) == OwedSrc(n, asked) && OwedDst(n, p) == OwedDst(n, asked) && Asked(n, p) == Asked(n, asked)
            && (sent ==> AckQueuesSent(n, p, l, size) && (NoRejection(n, p) <==> !srcErr && !dstErr))
  {
  }

  lemma AcksPlanned(n: Net, p: Plan, t: Timing, l: Limits, size: Msg -> nat)
    requires n.src != [] && n.dst != [] && AckPhase(n, p, t, l, size)
    ensures if Reached(t.remote, OwedSrc(n, p), OwedDst(n, p)) then AckPlan(n, p) else Idle(p)
  {
  }

  // ---- One pass ------------------------------------------------------------------------------------

  /** A phase that was not begun. */
  ghost predicate Skipped(p: Plan) {
    Idle(p) && p.before == Pause([], []) && p.between == Pause([], [])
  }

  /** What one turn of the loop does. */
  ghost predicate Attempted(n: Net, pass: Pass, env: Surroundings, l: Limits, size: Msg -> nat)
    requires n.src != [] && n.dst != []
  {
    && pass.grow == env.grow && PacketPhase(Grown(n, pass), pass.packets, env.packets, l, size)
    && if env.packets.fatal && !PacketsOk(Grown(n, pass), pass.packets, env.packets) then Skipped(pass.acks)
       else AckPhase(Halfway(n, pass), pass.acks, env.acks, l, size)
  }

  /** The worker goes on after it. */
  ghost predicate GoesOn(n: Net, pass: Pass, env: Surroundings)
    requires n.src != [] && n.dst != []
  {
    && (env.packets.fatal ==> PacketsOk(Grown(n, pass), pass.packets, env.packets))
    && AcksOk(Halfway(n, pass), pass.acks, env.acks)
  }

  method Iterate(n: Net, env: Surroundings, l: Limits, size: Msg -> nat) returns (pass: Pass, ok: bool)
    requires Inv(n)
    ensures Attempted(n, pass, env, l, size) && (ok <==> GoesOn(n, pass, env))
    ensures var g, h := Grown(n, pass), Halfway(n, pass);
            var answered := Reached(env.acks.remote, OwedSrc(h, pass.acks), OwedDst(h, pass.acks));
            && (!env.packets.fatal ==> (ok <==> answered && NoRejection(h, pass.acks)))
            && (env.packets.fatal ==>
                 (ok <==> && Reached(env.packets.remote, Mine(g, pass.packets), Theirs(g, pass.packets))
                          && NoRejection(g, pass.packets) && answered && NoRejection(h, pass.acks)))
  {
    StepsKeep(n, env.grow);
    var m := RunFrom(n, env.grow);
    var packets, fine := RelayUnrelayedPackets(m, env.packets, l, size);
    if !fine {
      var none := Plan(Pause([], []), [], [], Pause([], []), [], [], env.acks.srcSlots, env.acks.dstSlots);
      return Pass(env.grow, packets, none), false;
    }
    var acks, done := RelayUnrelayedAcks(After(m, packets), env.acks, l, size);
    pass, ok := Pass(env.grow, packets, acks), done;
  }

  lemma AttemptedIsAttempt(n: Net, pass: Pass, env: Surroundings, l: Limits, size: Msg -> nat)
    requires n.src != [] && n.dst != [] && Attempted(n, pass, env, l, size)
    ensures IsAttempt(n, pass)
  {
    PacketsPlanned(Grown(n, pass), pass.packets, env.packets, l, size);
    if !(env.packets.fatal && !PacketsOk(Grown(n, pass), pass.packets, env.packets)) {
      AcksPlanned(Halfway(n, pass), pass.acks, env.acks, l, size);
    }
  }

  // ---- The loop ------------------------------------------------------------------------------

  /** The passes are what the loop does in these surroundings. */
  ghost predicate Followed(n: Net, passes: seq<Pass>, env: nat -> Surroundings, l: Limits, size: Msg -> nat)
    requires n.src != [] && n.dst != []
    decreases |passes|
  {
    passes == [] ||
    (var front, pass := passes[..|passes| - 1], passes[|passes| - 1];
     Followed(n, front, env, l, size) && Attempted(Final(n, front), pass, env(|front|), l, size))
  }

  /** The worker goes on after every pass. */
  ghost predicate Healthy(n: Net, passes: seq<Pass>, env: nat -> Surroundings)
    requires n.src != [] && n.dst != []
    decreases |passes|
  {
    passes == [] ||
    (var front, pass := passes[..|passes| - 1], passes[|passes| - 1];
     Healthy(n, front, env) && GoesOn(Final(n, front), pass, env(|front|)))
  }

  /** It stopped after the last pass, and not before. */
  ghost predicate Stopped(n: Net, passes: seq<Pass>, env: nat -> Surroundings)
    requires n.src != [] && n.dst != []
  {
    passes != [] && Healthy(n, passes[..|passes| - 1], env) && !Healthy(n, passes, env)
  }

  /** The loop has come this far, and goes on. */
  ghost predicate Running(n: Net, passes: seq<Pass>, env: nat -> Surroundings, l: Limits, size: Msg -> nat, m: Net)
    requires n.src != [] && n.dst != []
  {
    m == Final(n, passes) && Followed(n, passes, env, l, size) && Healthy(n, passes, env)
  }

  lemma {:induction false} FollowedAttempts(n: Net, passes: seq<Pass>, env: nat -> Surroundings, l: Limits, size: Msg -> nat)
    requires n.src != [] && n.dst != [] && Followed(n, passes, env, l, size)
    ensures AreAttempts(n, passes)
    decreases |passes|
  {
    if passes != [] {
      var front := passes[..|passes| - 1];
      FollowedAttempts(n, front, env, l, size);
      AttemptedIsAttempt(Final(n, front), passes[|passes| - 1], env(|front|), l, size);
    }
  }

  lemma RunningInv(n: Net, passes: seq<Pass>, env: nat -> Surroundings, l: Limits, size: Msg -> nat, m: Net)
    requires Inv(n) && Running(n, passes, env, l, size, m)
    ensures Inv(m)
  {
    FollowedAttempts(n, passes, env, l, size);
    AttemptsKeepInv(n, passes);
  }

  lemma OneMorePass(n: Net, passes: seq<Pass>, env: nat -> Surroundings, l: Limits, size: Msg -> nat, m: Net, pass: Pass)
    requires n.src != [] && n.dst != [] && Running(n, passes, env, l, size, m) && Attempted(m, pass, env(|passes|), l, size)
    ensures Followed(n, passes + [pass], env, l, size)
    ensures GoesOn(m, pass, env(|passes|)) ==> Running(n, passes + [pass], env, l, size, Done(m, pass))
    ensures !GoesOn(m, pass, env(|passes|)) ==> Stopped(n, passes + [pass], env)
  {
    var longer := passes + [pass];
    assert longer[..|passes|] == passes && longer[|passes|] == pass;
  }

  /**
    The worker's loop, until its context is cancelled after `iterations` passes or a phase
    stops it.
   */
  method RelayUnrelayedPacketsAndAcks(n: Net, env: nat -> Surroundings, l: Limits, size: Msg -> nat, iterations: nat)
    returns (passes: seq<Pass>, ok: bool)
    requires Inv(n)
    ensures Followed(n, passes, env, l, size) && |passes| <= iterations
    ensures if ok then |passes| == iterations && Healthy(n, passes, env) else Stopped(n, passes, env)
  {
    passes, ok := [], true;
    var m := n;
    while |passes| < iterations
      invariant ok && |passes| <= iterations && Running(n, passes, env, l, size, m)
      decreases iterations - |passes|
    {
      RunningInv(n, passes, env, l, size, m);
      var pass;
      pass, ok := Iterate(m, env(|passes|), l, size);
      OneMorePass(n, passes, env, l, size, m, pass);
      passes, m := passes + [pass], Done(m, pass);
      if !ok {
        return;
      }
    }
  }

  /** Whatever fails and wherever it stops, the worker leaves a safe channel. */
  lemma WorkerIsSafe(n: Net, passes: seq<Pass>, env: nat -> Surroundings, l: Limits, size: Msg -> nat)
    requires Inv(n) && Followed(n, passes, env, l, size)
    ensures var z := Final(n, passes);
            Inv(z) && Safe(n.order, Last(z.src), Last(z.dst)) && Safe(n.order, Last(z.dst), Last(z.src))
  {
    FollowedAttempts(n, passes, env, l, size);
    AttemptsKeepInv(n, passes);
    AttemptsAreSafe(n, passes);
  }
}
