/**
  Messages that relayers repeat or race for.  What has been done already is done once more
  without effect and without failing its transaction, and what is due is accepted.
 */
module Redundancy {
  import opened Types
  import opened Packets
  import opened Relay

  // ---- Done already --------------------------------------------------------------------------

  /** A packet that has been delivered is received again without effect. */
  lemma ReceivedAgain(order: Order, chain: seq<End>, e: End, peer: seq<End>, s: nat, h: nat)
    requires Pair(order, chain + [e], peer) && e.open && h in e.heights && h < |peer|
    requires s in peer[h].commitments && !Expired(DeadlineOf(peer[h], s), |chain|, e.time) && s in e.delivered
    ensures Exec(order, e, |chain|, peer, Recv(s, h)) == Some(e)
  {
    BlockInProgress(order, chain, e, peer);
    CountsOrSet(order, e, s);
  }

  lemma CountsOrSet(order: Order, e: End, s: nat)
    requires ReceiverOk(order, e) && s in e.delivered
    ensures if order.Unordered? then s in e.receipts else s < e.nextRecv
  {
    if order.Ordered? {
      CountsMembers(e.delivered, s);
    }
  }

  /** A packet that has been acknowledged or timed out is so again without effect. */
  lemma SettledAgain(order: Order, chain: seq<End>, e: End, peer: seq<End>, s: nat, h: nat)
    requires Pair(order, chain + [e], peer) && (s in e.acked || s in e.timedOut)
    ensures e.open ==> Exec(order, e, |chain|, peer, Ack(s, h)) == Some(e)
    ensures Exec(order, e, |chain|, peer, TimeoutOnClose(s, h)) == Some(e)
    ensures h in e.heights && h < |peer| && Expired(DeadlineOf(e, s), h, peer[h].time) ==>
            Exec(order, e, |chain|, peer, Timeout(s, h)) == Some(e)
  {
    BlockInProgress(order, chain, e, peer);
  }

  /** The message has nothing left to do in this block. */
  predicate Done(e: End, at: nat, peer: seq<End>, m: Msg) {
    match m
    case UpdateClient(h) => h in e.heights && h < |peer|
    case Recv(s, h) =>
      && e.open && h in e.heights && h < |peer|
      && s in peer[h].commitments && !Expired(DeadlineOf(peer[h], s), at, e.time) && s in e.delivered
    case Ack(s, _) => e.open && s !in e.commitments
    case Timeout(s, h) => h in e.heights && h < |peer| && Expired(DeadlineOf(e, s), h, peer[h].time) && s !in e.commitments
    case TimeoutOnClose(s, _) => s !in e.commitments
    case CloseConfirm(_) => false
  }

  lemma DoneIsNoop(order: Order, e: End, at: nat, peer: seq<End>, m: Msg)
    requires ReceiverOk(order, e) && Done(e, at, peer, m)
    ensures Exec(order, e, at, peer, m) == Some(e)
  {
    if m.Recv? {
      CountsOrSet(order, e, m.s);
    } else if m.UpdateClient? {
      assert e.heights + {m.height} == e.heights;
    }
  }

  // ---- Later in the same transaction ---------------------------------------------------------

  /** What a transaction does to an end: logs and the client grow, commitments only go. */
  ghost predicate Grows(a: End, b: End) {
    && a.delivered <= b.delivered && a.heights <= b.heights && b.commitments <= a.commitments
    && a.sent == b.sent && a.time == b.time && (b.open ==> a.open)
  }

  lemma {:induction false} TxGrows(order: Order, e: End, at: nat, peer: seq<End>, msgs: seq<Msg>)
    requires ExecTx(order, e, at, peer, msgs).Some?
    ensures Grows(e, ExecTx(order, e, at, peer, msgs).value)
    decreases |msgs|
  {
    if msgs != [] {
      TxGrows(order, Exec(order, e, at, peer, msgs[0]).value, at, peer, msgs[1..]);
    }
  }

  lemma DoneStays(e: End, f: End, at: nat, peer: seq<End>, m: Msg)
    requires Done(e, at, peer, m) && Grows(e, f) && (m.Recv? || m.Ack? ==> f.open)
    ensures Done(f, at, peer, m)
  {
    if m.Recv? {
      PrefixMember(e.delivered, f.delivered, m.s);
    }
  }

  /** Such a message can be put anywhere into a transaction without changing what the transaction does. */
  lemma InsertDone(order: Order, chain: seq<End>, e: End, peer: seq<End>, a: seq<Msg>, m: Msg, b: seq<Msg>)
    requires Pair(order, chain + [e], peer) && Done(e, |chain|, peer, m)
    requires var r := ExecTx(order, e, |chain|, peer, a); r.Some? && (m.Recv? || m.Ack?) ==> r.value.open
    ensures ExecTx(order, e, |chain|, peer, a + [m] + b) == ExecTx(order, e, |chain|, peer, a + b)
  {
    var r := ExecTx(order, e, |chain|, peer, a);
    assert a + [m] + b == a + ([m] + b);
    ExecConcat(order, e, |chain|, peer, a, [m] + b);
    ExecConcat(order, e, |chain|, peer, a, b);
    if r.Some? {
      var f := r.value;
      ExecConcat(order, f, |chain|, peer, [m], b);
      TxGrows(order, e, |chain|, peer, a);
      DoneStays(e, f, |chain|, peer, m);
      ExecTxKeeps(order, chain, e, peer, a);
      BlockInProgress(order, chain, f, peer);
      DoneIsNoop(order, f, |chain|, peer, m);
      OneMessage(order, f, |chain|, peer, m);
    }
  }

  // ---- Repeated transactions -----------------------------------------------------------------------

  /** An accepted message has nothing left to do. */
  lemma MakesDone(order: Order, chain: seq<End>, e: End, peer: seq<End>, m: Msg)
    requires Pair(order, chain + [e], peer) && Exec(order, e, |chain|, peer, m).Some?
    requires Exec(order, e, |chain|, peer, m).value.open
    ensures Done(Exec(order, e, |chain|, peer, m).value, |chain|, peer, m)
  {
    var f := Exec(order, e, |chain|, peer, m).value;
    BlockInProgress(order, chain, e, peer);
    if m.Recv? {
      OldBlock(order, chain, e, peer, m.height);
      if order.Ordered? {
        CountsMembers(e.delivered, m.s);
      }
    }
  }

  lemma {:induction false} AllDone(order: Order, e: End, at: nat, peer: seq<End>, msgs: seq<Msg>)
    requires ReceiverOk(order, e) && forall m :: m in msgs ==> Done(e, at, peer, m)
    ensures ExecTx(order, e, at, peer, msgs) == Some(e)
    decreases |msgs|
  {
    if msgs != [] {
      assert msgs[0] in msgs && forall m :: m in msgs[1..] ==> m in msgs;
      DoneIsNoop(order, e, at, peer, msgs[0]);
      AllDone(order, e, at, peer, msgs[1..]);
    }
  }

  lemma {:induction false} TxMakesDone(order: Order, chain: seq<End>, e: End, peer: seq<End>, msgs: seq<Msg>)
    requires Pair(order, chain + [e], peer) && ExecTx(order, e, |chain|, peer, msgs).Some?
    requires ExecTx(order, e, |chain|, peer, msgs).value.open
    ensures forall m :: m in msgs ==> Done(ExecTx(order, e, |chain|, peer, msgs).value, |chain|, peer, m)
    decreases |msgs|
  {
    if msgs != [] {
      var f, g := Exec(order, e, |chain|, peer, msgs[0]).value, ExecTx(order, e, |chain|, peer, msgs).value;
      ExecKeeps(order, chain, e, peer, msgs[0]);
      TxGrows(order, f, |chain|, peer, msgs[1..]);
      MakesDone(order, chain, e, peer, msgs[0]);
      DoneStays(f, g, |chain|, peer, msgs[0]);
      TxMakesDone(order, chain, f, peer, msgs[1..]);
    }
  }

  /** A transaction that leaves the end open can be repeated: the second time it is accepted and does nothing. */
  lemma Idempotent(order: Order, chain: seq<End>, e: End, peer: seq<End>, msgs: seq<Msg>)
    requires Pair(order, chain + [e], peer) && ExecTx(order, e, |chain|, peer, msgs).Some?
    requires ExecTx(order, e, |chain|, peer, msgs).value.open
    ensures var f := ExecTx(order, e, |chain|, peer, msgs).value;
            ExecTx(order, f, |chain|, peer, msgs) == Some(f)
  {
    var f := ExecTx(order, e, |chain|, peer, msgs).value;
    TxMakesDone(order, chain, e, peer, msgs);
    ExecTxKeeps(order, chain, e, peer, msgs);
    BlockInProgress(order, chain, f, peer);
    AllDone(order, f, |chain|, peer, msgs);
  }

  // ---- What is due is accepted ------------------------------------------------------------------------

  /** Sent, and not finished yet. */
  predicate Unfinished(e: End, s: nat) {
    1 <= s <= |e.sent| && s !in e.acked && s !in e.timedOut
  }

  /** A packet is delivered when its turn has come and it is in time. */
  lemma DueIsReceived(order: Order, chain: seq<End>, e: End, peer: seq<End>, s: nat, h: nat)
    requires Pair(order, chain + [e], peer) && e.open && h in e.heights && h < |peer|
    requires Unfinished(peer[h], s) && !Expired(peer[h].sent[s - 1], |chain|, e.time)
    requires s !in e.delivered && (order.Ordered? ==> s == |e.delivered| + 1)
    ensures var r := Exec(order, e, |chain|, peer, Recv(s, h));
            r.Some? && r.value.delivered == e.delivered + [s] && r.value.acks == e.acks + {s}
  {
    BlockInProgress(order, chain, e, peer);
    OldBlock(order, chain, e, peer, h);
  }

  /** A delivered packet is acknowledged when its turn has come. */
  lemma DueIsAcknowledged(order: Order, chain: seq<End>, e: End, peer: seq<End>, s: nat, h: nat)
    requires Pair(order, chain + [e], peer) && e.open && h in e.heights && h < |peer|
    requires Unfinished(e, s) && s in peer[h].delivered && (order.Ordered? ==> s == |e.acked| + 1)
    ensures var r := Exec(order, e, |chain|, peer, Ack(s, h));
            r.Some? && r.value.acked == e.acked + [s] && r.value.commitments == e.commitments - {s} && r.value.open
  {
    BlockInProgress(order, chain, e, peer);
    OldBlock(order, chain, e, peer, h);
  }

  lemma Undelivered(order: Order, chain: seq<End>, e: End, peer: seq<End>, s: nat, h: nat)
    requires Pair(order, chain + [e], peer) && h < |peer| && s >= 1 && s !in peer[h].delivered
    ensures Absent(order, peer[h], s)
  {
    OldBlock(order, chain, e, peer, h);
    AbsentIsUndelivered(order, peer[h], s);
  }

  /** An expired packet that was not delivered is timed out; an ordered end closes with it. */
  lemma DueIsTimedOut(order: Order, chain: seq<End>, e: End, peer: seq<End>, s: nat, h: nat)
    requires Pair(order, chain + [e], peer) && e.open && h in e.heights && h < |peer|
    requires Unfinished(e, s) && s !in peer[h].delivered && Expired(e.sent[s - 1], h, peer[h].time)
    ensures var r := Exec(order, e, |chain|, peer, Timeout(s, h));
            && r.Some? && r.value.timedOut == e.timedOut + [s] && r.value.commitments == e.commitments - {s}
            && (r.value.open <==> order.Unordered?)
  {
    BlockInProgress(order, chain, e, peer);
    Undelivered(order, chain, e, peer, s, h);
  }

  /** When the counterparty has closed, every packet it lacks is timed out, expired or not, open or not. */
  lemma ClosedIsTimedOut(order: Order, chain: seq<End>, e: End, peer: seq<End>, s: nat, h: nat)
    requires Pair(order, chain + [e], peer) && h in e.heights && h < |peer|
    requires Unfinished(e, s) && s !in peer[h].delivered && !peer[h].open
    ensures var r := Exec(order, e, |chain|, peer, TimeoutOnClose(s, h));
            && r.Some? && r.value.timedOut == e.timedOut + [s] && r.value.commitments == e.commitments - {s}
            && (r.value.open <==> e.open && order.Unordered?)
  {
    BlockInProgress(order, chain, e, peer);
    Undelivered(order, chain, e, peer, s, h);
  }

  /** Closing one end lets the other be closed behind it, and changes nothing else. */
  lemma CloseTravels(n: Net, delay: nat, later: nat)
    requires n.src != [] && n.dst != [] && Last(n.dst).open
    ensures var h := |n.src|;
            var z := RunFrom(n, [Step(true, delay, CloseInit), Step(false, later, Tx([UpdateClient(h), CloseConfirm(h)]))]);
            && Last(z.src) == Last(n.src).(time := Last(n.src).time + delay, open := false)
            && Last(z.dst) == Last(n.dst).(time := Last(n.dst).time + later, open := false, heights := Last(n.dst).heights + {h})
  {
    var h := |n.src|;
    var steps := [Step(true, delay, CloseInit), Step(false, later, Tx([UpdateClient(h), CloseConfirm(h)]))];
    assert steps[..1] == [steps[0]] && steps[..1][..0] == [] && RunFrom(n, []) == n;
    var m := RunFrom(n, steps[..1]);
    assert m == Take(n, steps[0]) && RunFrom(n, steps) == Take(m, steps[1]);
    CloseTx(n.order, Begin(Last(n.dst), later), |n.dst|, m.src, h);
  }

  lemma CloseTx(order: Order, e: End, at: nat, peer: seq<End>, h: nat)
    requires h < |peer| && !peer[h].open && e.open
    ensures ExecTx(order, e, at, peer, [UpdateClient(h), CloseConfirm(h)]) == Some(e.(open := false, heights := e.heights + {h}))
  {
    var f := e.(heights := e.heights + {h});
    assert [UpdateClient(h), CloseConfirm(h)][1..] == [CloseConfirm(h)];
    assert Exec(order, e, at, peer, UpdateClient(h)) == Some(f);
    OneMessage(order, f, at, peer, CloseConfirm(h));
  }

  /** An end that is closed already, or whose counterparty is not seen closed, does not close. */
  lemma CloseNeedsProof(order: Order, e: End, at: nat, peer: seq<End>, h: nat)
    requires !e.open || h !in e.heights || h >= |peer| || peer[h].open
    ensures Exec(order, e, at, peer, CloseConfirm(h)) == None
  {
  }

  /** None of the blocks the end knows has passed the deadline. */
  ghost predicate Ahead(e: End, peer: seq<End>, d: Deadline) {
    forall h :: h in e.heights && h < |peer| ==>
      (d.height == 0 || h < d.height) && (d.timestamp == 0 || peer[h].time < d.timestamp)
  }

  /** A packet is sent if and only if the end is open, there is a deadline, and no known block has passed it. */
  lemma SentIff(e: End, peer: seq<End>, d: Deadline)
    ensures var out := e.open && (d.height != 0 || d.timestamp != 0) && Ahead(e, peer, d);
            SendPacket(e, peer, d)
            == if out then e.(sent := e.sent + [d], commitments := e.commitments + {|e.sent| + 1}) else e
  {
    if MaySend(e, peer, d) {
      forall h | h in e.heights && h < |peer|
        ensures (d.height == 0 || h < d.height) && (d.timestamp == 0 || peer[h].time < d.timestamp)
      {
        assert !Expired(d, h, peer[h].time);
      }
    }
  }
}
