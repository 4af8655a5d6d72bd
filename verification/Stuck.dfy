/**
  Acknowledgements in text order on an ordered channel.  The store is listed in the order of its
  keys, and keys are text: once two acknowledgements are owed that text puts the other way round,
  such as 9 and 10, a transaction that holds them is rejected, and so is every later one.
 */
module Stuck {
  import opened Types
  import opened Text
  import opened Packets
  import opened Batching
  import opened Relay
  import opened Rounds
  import opened Passes
  import opened OrderedAcks
  import opened Settling

  lemma {:induction false} FilterSorted(q: seq<nat>, keep: nat -> bool)
    requires TextSorted(q)
    ensures TextSorted(Filter(q, keep))
  {
    if q != [] {
      var p, s := q[..|q| - 1], q[|q| - 1];
      FilterSorted(p, keep);
      var f := Filter(p, keep);
      forall i | 0 <= i < |f|
        ensures TextBefore(f[i], s)
      {
        FilterMembers(p, keep, f[i]);
        var j :| 0 <= j < |p| && p[j] == f[i];
        assert q[j] == f[i] && q[|q| - 1] == s;
      }
    }
  }

  /** Text and numbers disagree about the order of `a` and `b`. */
  predicate Inverted(a: nat, b: nat) { a < b && TextBefore(b, a) }

  /** No two numbers of the range are inverted. */
  ghost predicate TextAgrees(from: nat, to: nat) {
    forall a, b :: from <= a < b <= to ==> !Inverted(a, b)
  }

  lemma TextAsymmetric(a: nat, b: nat)
    ensures !(TextBefore(a, b) && TextBefore(b, a))
  {
    CompareEqual(Digits(a), Digits(b));
  }

  lemma NotConsecutive(q: seq<nat>, from: nat, a: nat, b: nat)
    requires TextSorted(q) && a in q && b in q && Inverted(a, b)
    ensures !Consecutive(q, from)
  {
    var i :| 0 <= i < |q| && q[i] == a;
    var j :| 0 <= j < |q| && q[j] == b;
    InvertedPositions(q, i, j);
  }

  lemma InvertedPositions(q: seq<nat>, i: nat, j: nat)
    requires TextSorted(q) && i < |q| && j < |q| && Inverted(q[i], q[j])
    ensures j < i
  {
    TextAsymmetric(q[i], q[j]);
  }

  ghost predicate Increasing(q: seq<nat>) {
    forall i, j :: 0 <= i < j < |q| ==> q[i] < q[j]
  }

  /** An increasing list of a range is the range. */
  lemma {:induction false} IncreasingRange(q: seq<nat>, from: nat, to: nat)
    requires Increasing(q) && forall s :: s in q <==> from <= s <= to
    ensures Consecutive(q, from)
    decreases |q|
  {
    if q != [] {
      assert q[0] in q;
      assert from in q;
      var i :| 0 <= i < |q| && q[i] == from;
      assert q[0] == from;
      var rest := q[1..];
      forall s
        ensures s in rest <==> from + 1 <= s <= to
      {
        assert s in q <==> s == q[0] || s in rest;
        assert forall j :: 0 <= j < |rest| ==> rest[j] == q[j + 1];
      }
      IncreasingRange(rest, from + 1, to);
      ConsecutiveFront(q, from);
    }
  }

  /** A range listed as text is in sequence if and only if text agrees with the numbers. */
  lemma TextIff(q: seq<nat>, from: nat, to: nat)
    requires TextSorted(q) && NoDup(q) && forall s :: s in q <==> from <= s <= to
    ensures Consecutive(q, from) <==> TextAgrees(from, to)
  {
    if TextAgrees(from, to) {
      forall i, j | 0 <= i < j < |q|
        ensures q[i] < q[j]
      {
        assert q[i] in q && q[j] in q;
        assert TextBefore(q[i], q[j]);
        assert !Inverted(q[j], q[i]);
      }
      IncreasingRange(q, from, to);
    } else {
      var a, b :| from <= a < b <= to && Inverted(a, b);
      NotConsecutive(q, from, a, b);
    }
  }

  /**
    With text listings the acknowledgements of an open ordered channel go through, but for empty
    batches and however they are cut, if and only if no two of the owed ones are inverted.
   */
  lemma TextPhaseIff(chain: seq<End>, peer: seq<End>, q: seq<nat>, log: seq<seq<Message<Msg>>>, slots: nat -> Slot)
    requires Pair(Ordered, chain, peer) && AckLogOf(chain, peer, q, log) && TextSorted(q)
    requires forall s :: s in q <==> s in Last(peer).acks && s in Last(chain).commitments
    ensures AcceptedUnlessEmpty(log, SendLog(Ordered, chain, peer, log, slots).accepted) <==>
            TextAgrees(Last(chain).nextAck, |Last(peer).delivered|)
  {
    OrderedRanges(chain, peer);
    TextIff(q, Last(chain).nextAck, |Last(peer).delivered|);
    OrderedAcksIff(chain, peer, q, log, slots);
  }

  /** The sender waits for acknowledgement `k`, and the inverted `a` and `b` are both owed. */
  ghost predicate Waiting(sender: End, receiver: End, k: nat, a: nat, b: nat) {
    sender.nextAck == k <= a && 1 <= a < b <= |receiver.delivered| && Inverted(a, b)
  }

  /** Both acknowledgements are owed, and will be as long as the sender waits. */
  lemma WaitingOwes(chain: seq<End>, peer: seq<End>, k: nat, a: nat, b: nat)
    requires Pair(Ordered, chain, peer) && Waiting(Last(chain), Last(peer), k, a, b)
    ensures {a, b} <= Last(chain).commitments && {a, b} <= Last(peer).acks
  {
    var e, f := Last(chain), Last(peer);
    LastOk(Ordered, chain);
    LastOk(Ordered, peer);
    CountsMembers(f.delivered, a);
    CountsMembers(f.delivered, b);
    CountsMembers(e.acked, a);
    CountsMembers(e.acked, b);
  }

  // ---- Every part of a pass keeps the sender waiting -------------------------------------------

  ghost predicate NoAcks(msgs: seq<Msg>) {
    forall i :: 0 <= i < |msgs| ==> !msgs[i].Ack?
  }

  lemma {:induction false} NoAckTx(order: Order, e: End, at: nat, peer: seq<End>, msgs: seq<Msg>)
    requires NoAcks(msgs)
    ensures ExecTx(order, e, at, peer, msgs).Some? ==> ExecTx(order, e, at, peer, msgs).value.nextAck == e.nextAck
    decreases |msgs|
  {
    if msgs != [] && Exec(order, e, at, peer, msgs[0]).Some? {
      assert !msgs[0].Ack?;
      NoAckTx(order, Exec(order, e, at, peer, msgs[0]).value, at, peer, msgs[1..]);
    }
  }

  lemma NoAcksConcat(a: seq<Msg>, b: seq<Msg>)
    requires NoAcks(a + b)
    ensures NoAcks(a) && NoAcks(b)
  {
    assert forall i :: 0 <= i < |a| ==> a[i] == (a + b)[i];
    assert forall i :: 0 <= i < |b| ==> b[i] == (a + b)[|a| + i];
  }

  lemma {:induction false} NoAckLog(order: Order, chain: seq<End>, peer: seq<End>, log: seq<seq<Message<Msg>>>, slots: nat -> Slot)
    requires chain != [] && NoAcks(Bodies(Flatten(log)))
    ensures Last(SendLog(order, chain, peer, log, slots).chain).nextAck == Last(chain).nextAck
  {
    if log != [] {
      var front, back := log[..|log| - 1], log[|log| - 1];
      BodiesConcat(Flatten(front), back);
      NoAcksConcat(Bodies(Flatten(front)), Bodies(back));
      NoAckLog(order, chain, peer, front, slots);
      var at := LastLanding(order, chain, peer, log, slots);
      NoAckTx(order, Last(SendLog(order, chain, peer, front, slots).chain).(time := at.time), at.height, peer, Bodies(back));
    }
  }

  lemma PacketsHaveNoAcks(self: seq<End>, peer: seq<End>, mine: seq<nat>, theirs: seq<nat>, first: bool)
    requires self != [] && peer != []
    ensures NoAcks(PacketQueue(self, peer, mine, theirs, first))
  {
  }

  lemma PacketPhaseWaits(n: Net, p: Plan)
    requires n.src != [] && n.dst != [] && PacketPlan(n, p)
    ensures Last(After(n, p).src).nextAck == Last(n.src).nextAck
  {
    var m := Built(n, p);
    BuiltEnds(n, p);
    PacketsHaveNoAcks(m.src, m.dst, Mine(n, p), Theirs(n, p), true);
    NoAckLog(n.order, m.src, m.dst, p.srcLog, p.srcSlots);
  }

  /** On a closed end every ack is rejected. */
  lemma ClosedRejects(e: End, at: nat, peer: seq<End>, q: seq<nat>)
    requires peer != [] && !e.open && q != []
    ensures RunTx(Ordered, e, at, peer, AckMsgs(peer, q)) == None
  {
    var h := |peer| - 1;
    assert Acks(q, h) != [];
    UpdateFirst(Ordered, e, at, peer, h, Acks(q, h));
    assert Acks(q, h)[0] == Ack(q[0], h);
  }

  lemma OneBatchOnly(log: seq<seq<Message<Msg>>>)
    requires |log| == 1
    ensures Flatten(log) == log[0]
  {
  }

  /** The acknowledgement queue in one batch, listed as text: rejected, and nothing changed. */
  lemma TextBatchRejected(chain: seq<End>, peer: seq<End>, q: seq<nat>, log: seq<seq<Message<Msg>>>, slots: nat -> Slot, a: nat, b: nat)
    requires chain != [] && peer != [] && |log| == 1
    requires NoDup(q) && TextSorted(q) && a in q && b in q && Inverted(a, b)
    requires forall s :: s in q ==> s in Last(chain).commitments && s in Last(peer).acks
    requires Bodies(Flatten(log)) == AckMsgs(peer, q)
    ensures var r := SendLog(Ordered, chain, peer, log, slots);
            r.accepted == [false] && Last(r.chain).nextAck == Last(chain).nextAck
  {
    if Last(chain).open {
      NotConsecutive(q, Last(chain).nextAck, a, b);
      OneBatchRejected(chain, peer, q, log, slots);
    } else {
      var at := LastLanding(Ordered, chain, peer, log, slots);
      OneBatchOnly(log);
      assert log[..0] == [];
      ClosedRejects(Last(chain).(time := at.time), at.height, peer, q);
    }
  }

  /** The source's acknowledgements are listed as text and fit one batch. */
  ghost predicate TextPlan(p: Plan) {
    TextSorted(p.dstList) && |p.srcLog| == 1
  }

  /** The waiting source stays waiting; its part of the phase reports an error. */
  lemma AckPhaseRejected(n: Net, p: Plan, k: nat, a: nat, b: nat)
    requires Inv(n) && n.order.Ordered? && Waiting(Last(n.src), Last(n.dst), k, a, b) && AckPlan(n, p) && TextPlan(p)
    ensures SrcSent(n, p).accepted == [false] && Last(After(n, p).src).nextAck == k
  {
    var q, m := Asked(n, p), Built(n, p);
    BuiltEnds(n, p);
    WaitingOwes(n.src, n.dst, k, a, b);
    PendingAckMembers(Last(q.src), p.dstList, Last(q.dst).acks);
    var keep := (s: nat) => s in Last(q.src).commitments;
    FilterSorted(p.dstList, keep);
    assert OwedSrc(n, p) == Filter(p.dstList, keep);
    TextBatchRejected(m.src, m.dst, OwedSrc(n, p), p.srcLog, p.srcSlots, a, b);
  }

  lemma DeliveredStays(n: Net, n': Net)
    requires n.src != [] && n.dst != [] && Inv(n') && Extends(n, n')
    ensures |Last(n.dst).delivered| <= |Last(n'.dst).delivered|
  {
    Later(n'.order, n.dst, n'.dst);
  }

  /** One pass on a channel whose source waits. */
  lemma StuckPass(n: Net, pass: Pass, k: nat, a: nat, b: nat)
    requires Inv(n) && n.order.Ordered? && Waiting(Last(n.src), Last(n.dst), k, a, b) && IsPass(n, pass) && TextPlan(pass.acks)
    ensures Waiting(Last(Done(n, pass).src), Last(Done(n, pass).dst), k, a, b)
    ensures SrcSent(Halfway(n, pass), pass.acks).accepted == [false]
  {
    var g, h, c := Grown(n, pass), Halfway(n, pass), Done(n, pass);
    PassKeepsInv(n, pass);
    PassExtends(n, pass);
    GrowKeeps(n, pass.grow);
    PacketPhaseWaits(g, pass.packets);
    DeliveredStays(g, h);
    AckPhaseRejected(h, pass.acks, k, a, b);
    DeliveredStays(h, c);
  }

  /** The source waits on a channel that satisfies the invariant. */
  ghost predicate StuckNet(n: Net, k: nat, a: nat, b: nat) {
    Inv(n) && n.order.Ordered? && Waiting(Last(n.src), Last(n.dst), k, a, b)
  }

  ghost predicate TextPasses(passes: seq<Pass>) {
    forall pass :: pass in passes ==> TextPlan(pass.acks)
  }

  /**
    Stuck for good: however many passes follow, whatever else is relayed, sent or times out, no
    acknowledgement from `k` on ever goes through.
   */
  lemma {:induction false} StuckForever(n: Net, passes: seq<Pass>, k: nat, a: nat, b: nat)
    requires StuckNet(n, k, a, b) && ArePasses(n, passes) && TextPasses(passes)
    ensures StuckNet(Final(n, passes), k, a, b)
    decreases |passes|
  {
    if passes != [] {
      var front, pass := passes[..|passes| - 1], passes[|passes| - 1];
      StuckForever(n, front, k, a, b);
      StuckAgain(Final(n, front), pass, k, a, b);
    }
  }

  lemma StuckAgain(n: Net, pass: Pass, k: nat, a: nat, b: nat)
    requires StuckNet(n, k, a, b) && IsPass(n, pass) && TextPlan(pass.acks)
    ensures StuckNet(Done(n, pass), k, a, b)
  {
    PassKeepsInv(n, pass);
    StuckPass(n, pass, k, a, b);
  }

  /** So the two packets stay outstanding, and the next acknowledgement phase is rejected again. */
  lemma NeverCleared(n: Net, passes: seq<Pass>, pass: Pass, k: nat, a: nat, b: nat)
    requires StuckNet(n, k, a, b) && ArePasses(n, passes) && TextPasses(passes)
    requires IsPass(Final(n, passes), pass) && TextPlan(pass.acks)
    ensures {a, b} <= Last(Final(n, passes).src).commitments
    ensures SrcSent(Halfway(Final(n, passes), pass), pass.acks).accepted == [false]
  {
    StuckForever(n, passes, k, a, b);
    WaitingOwes(Final(n, passes).src, Final(n, passes).dst, k, a, b);
    StuckPass(Final(n, passes), pass, k, a, b);
  }

  // ---- A run that gets there --------------------------------------------------------------------

  const FAR := Deadline(1000, 0)

  function UpTo(k: nat): seq<nat> { seq(k, (i: int) requires 0 <= i => i + 1) }

  /** `k` blocks of the source, each with a new packet. */
  function Sends(k: nat): seq<Step> { seq(k, (i: int) => Step(true, 0, SendTo(FAR))) }

  /** Ten packets are sent, all are received in one transaction, and the first eight acknowledged in another. */
  function Steps(): seq<Step> {
    Sends(10) + [Step(false, 0, Tx(WithUpdate(Recvs(UpTo(10), 10), 10)))]
    + [Step(true, 0, Tx(WithUpdate(Acks(UpTo(8), 1), 1)))]
  }

  ghost function Sender(k: nat): End {
    NEW_END.(sent := seq(k, (i: int) => FAR), commitments := set s | s in UpTo(k))
  }

  ghost function Receiver(): End {
    NEW_END.(nextRecv := 11, acks := SetOf(UpTo(10)), delivered := UpTo(10), heights := {0, 10})
  }

  lemma UpToMembers(k: nat, s: nat)
    ensures s in UpTo(k) <==> 1 <= s <= k
  {
    if 1 <= s <= k {
      assert UpTo(k)[s - 1] == s;
    }
  }

  lemma SendOneMore(k: nat)
    ensures SendPacket(Begin(Sender(k), 0), [NEW_END], FAR) == Sender(k + 1)
  {
    assert seq(k + 1, (i: int) => FAR) == seq(k, (i: int) => FAR) + [FAR];
    assert UpTo(k + 1) == UpTo(k) + [k + 1];
    assert Sender(k + 1).commitments == Sender(k).commitments + {k + 1};
  }

  lemma {:induction false} AfterSends(k: nat)
    ensures var n := Run(Ordered, Sends(k));
            n.dst == [NEW_END] && |n.src| == k + 1 && Last(n.src) == Sender(k)
  {
    if k == 0 {
      assert Sends(0) == [] && UpTo(0) == [];
      assert seq(0, (i: int) => FAR) == [];
    } else {
      AfterSends(k - 1);
      assert Sends(k)[..k - 1] == Sends(k - 1);
      SendOneMore(k - 1);
    }
  }

  /** Receives in sequence are all accepted. */
  lemma {:induction false} OrderedRecvQueue(e: End, at: nat, peer: seq<End>, h: nat, q: seq<nat>)
    requires e.open && Known(e, peer, h) && Consecutive(q, e.nextRecv)
    requires forall s :: s in q ==> s in peer[h].commitments && !Expired(DeadlineOf(peer[h], s), at, e.time)
    ensures ExecTx(Ordered, e, at, peer, Recvs(q, h))
         == Some(Took(e, q))
    decreases |q|
  {
    if q == [] {
      assert Recvs(q, h) == [];
      assert e.acks + SetOf(q) == e.acks && e.delivered + q == e.delivered;
    } else {
      var s, p := q[0], q[1..];
      assert s in q && forall t :: t in p ==> t in q;
      assert Recvs(q, h)[0] == Recv(s, h) && Recvs(q, h)[1..] == Recvs(p, h);
      var f := Took(e, [s]);
      assert SetOf([s]) == {s};
      assert Exec(Ordered, e, at, peer, Recv(s, h)) == Some(f);
      OrderedRecvQueue(f, at, peer, h, p);
      TookTwice(e, q);
    }
  }

  /** The receiving end after the packets `q`. */
  ghost function Took(e: End, q: seq<nat>): End {
    e.(nextRecv := e.nextRecv + |q|, acks := e.acks + SetOf(q), delivered := e.delivered + q)
  }

  lemma TookTwice(e: End, q: seq<nat>)
    requires q != []
    ensures Took(Took(e, [q[0]]), q[1..]) == Took(e, q)
  {
  }

  lemma AfterReceives(src: seq<End>)
    requires |src| == 11 && Last(src) == Sender(10)
    ensures NextBlock(Ordered, [NEW_END], src, 0, Tx(WithUpdate(Recvs(UpTo(10), 10), 10))) == Receiver()
  {
    var e, q := Begin(NEW_END, 0), UpTo(10);
    assert e == NEW_END && Recvs(q, 10) != [];
    var f := e.(heights := e.heights + {10});
    assert f.heights == {0, 10};
    UpdateFirst(Ordered, e, 1, src, 10, Recvs(q, 10));
    forall s | s in q
      ensures s in src[10].commitments && !Expired(DeadlineOf(src[10], s), 1, f.time)
    {
      UpToMembers(10, s);
    }
    OrderedRecvQueue(f, 1, src, 10, q);
    assert f.acks + SetOf(q) == SetOf(q) && f.delivered + q == q;
  }

  /** The sender after eight acknowledgements. */
  lemma AfterAcks(src: seq<End>, dst: seq<End>)
    requires |src| == 11 && Last(src) == Sender(10) && |dst| == 2 && dst[1] == Receiver()
    ensures var e := NextBlock(Ordered, src, dst, 0, Tx(WithUpdate(Acks(UpTo(8), 1), 1)));
            e.nextAck == 9 && e.open && e.commitments == {9, 10}
  {
    var e, q := Begin(Last(src), 0), UpTo(8);
    assert e == Sender(10) && Acks(q, 1) != [];
    var f := e.(heights := e.heights + {1});
    UpdateFirst(Ordered, e, 11, dst, 1, Acks(q, 1));
    forall s | s in q
      ensures s in f.commitments && s in dst[1].acks
    {
      UpToMembers(8, s);
      UpToMembers(10, s);
    }
    OrderedAckQueue(f, 11, dst, 1, q);
    forall s: nat
      ensures s in f.commitments - SetOf(q) <==> s in {9, 10}
    {
      UpToMembers(8, s);
      UpToMembers(10, s);
    }
    assert f.commitments - SetOf(q) == {9, 10};
  }

  /** The acknowledgements 1 to 10 in the order of their keys. */
  const AS_TEXT: seq<nat> := [1, 10, 2, 3, 4, 5, 6, 7, 8, 9]

  lemma AsTextSorted()
    ensures TextSorted(AS_TEXT)
  {
    TenBeforeNine();
    assert Digits(10) == "10" && forall n: nat :: n < 10 ==> Digits(n) == [('0' as int + n) as char];
    NeighboursSorted(AS_TEXT);
  }

  lemma AsTextListed(s: nat)
    ensures s in AS_TEXT <==> s in UpTo(10)
  {
    UpToMembers(10, s);
  }

  lemma AsTextPending(e: End)
    requires e.commitments == {9, 10}
    ensures PendingAcks(e, AS_TEXT) == [10, 9]
  {
    var keep := (s: nat) => s in e.commitments;
    assert forall s: nat :: keep(s) <==> s == 9 || s == 10;
    FilterOne([], keep, 1);
    FilterOne([1], keep, 10);
    for i := 2 to 9
      invariant Filter(AS_TEXT[..i], keep) == [10]
    {
      FilterOne(AS_TEXT[..i], keep, i);
      assert AS_TEXT[..i] + [i] == AS_TEXT[..i + 1];
    }
    FilterOne(AS_TEXT[..9], keep, 9);
    assert AS_TEXT[..9] + [9] == AS_TEXT;
  }

  lemma FilterOne(q: seq<nat>, keep: nat -> bool, s: nat)
    ensures Filter(q + [s], keep) == Filter(q, keep) + (if keep(s) then [s] else [])
  {
    assert (q + [s])[..|q|] == q;
  }

  lemma RunEnds()
    ensures var n := Run(Ordered, Steps());
            Last(n.src).nextAck == 9 && Last(n.src).open && Last(n.src).commitments == {9, 10} && Last(n.dst) == Receiver()
  {
    var steps := Steps();
    var sent, received := Run(Ordered, Sends(10)), Run(Ordered, steps[..11]);
    AfterSends(10);
    assert steps[..11][..10] == Sends(10) && |steps| == 12;
    AfterReceives(sent.src);
    assert received == Net(Ordered, sent.src, [NEW_END, Receiver()]);
    AfterAcks(received.src, received.dst);
  }

  lemma AsTextLists()
    ensures Lists(AS_TEXT, Receiver().acks)
  {
    forall s: nat
      ensures s in AS_TEXT <==> s in Receiver().acks
    {
      AsTextListed(s);
    }
  }

  /** The run leaves the source waiting for 9, with both acknowledgements listed the wrong way round. */
  lemma OutOfOrderRun()
    ensures var n := Run(Ordered, Steps());
            && StuckNet(n, 9, 9, 10) && Last(n.src).open && Last(n.dst).open
            && Lists(AS_TEXT, Last(n.dst).acks) && TextSorted(AS_TEXT)
            && PendingAcks(Last(n.src), AS_TEXT) == [10, 9]
  {
    RunEnds();
    TenBeforeNine();
    RunKeeps(Ordered, Steps());
    AsTextSorted();
    AsTextLists();
    AsTextPending(Last(Run(Ordered, Steps()).src));
  }

  /** No worker that lists as text and sends in one batch ever gets out of that state. */
  lemma RunNeverCleared(passes: seq<Pass>)
    requires ArePasses(Run(Ordered, Steps()), passes) && TextPasses(passes)
    ensures {9, 10} <= Last(Final(Run(Ordered, Steps()), passes).src).commitments
  {
    var n := Run(Ordered, Steps());
    OutOfOrderRun();
    StuckForever(n, passes, 9, 9, 10);
    WaitingOwes(Final(n, passes).src, Final(n, passes).dst, 9, 9, 10);
  }

  /** In that state the acknowledgement queue is not accepted, however it is cut into batches. */
  lemma OutOfOrderRejected(log: seq<seq<Message<Msg>>>, slots: nat -> Slot)
    requires var n := Run(Ordered, Steps());
             Bodies(Flatten(log)) == AckMsgs(n.dst, PendingAcks(Last(n.src), AS_TEXT))
    ensures var n := Run(Ordered, Steps());
            !AcceptedUnlessEmpty(log, SendLog(Ordered, n.src, n.dst, log, slots).accepted)
  {
    var n := Run(Ordered, Steps());
    OutOfOrderRun();
    PendingAckMembers(Last(n.src), AS_TEXT, Last(n.dst).acks);
    OrderedAcksIff(n.src, n.dst, [10, 9], log, slots);
    assert [10, 9][0] != 9;
  }
}
