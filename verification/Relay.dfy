/**
  The parts of a relay round (deps/relayer/relayer/naive-strategy.go and
  relayMsgs.go): what the queries answer, which messages are built, and what the
  batches of a queue do to a chain.

  The chains answer by the rules of `Packets`, the queries by `ForkJoin`, and the
  batches are any split of the queues, in particular the one `Batching` sends.
 */
module Relay {
  import opened Types
  import opened Packets
  import ForkJoin
  import opened Batching

  // ---- Queries -----------------------------------------------------------------

  /** A query result: the members of `set`, in whatever order the store lists them. */
  ghost predicate Lists(q: seq<nat>, members: set<nat>) {
    NoDup(q) && forall s :: s in q <==> s in members
  }

  function Filter(q: seq<nat>, keep: nat -> bool): seq<nat> {
    if q == [] then [] else Filter(q[..|q| - 1], keep) + (if keep(q[|q| - 1]) then [q[|q| - 1]] else [])
  }

  /** `UnreceivedPackets` on the receiving end. */
  predicate IsUnreceived(order: Order, receiver: End, s: nat) {
    if order.Unordered? then s !in receiver.receipts else s >= receiver.nextRecv
  }

  /** The answers of two healthy chains; `listing` lists the sender's commitments. */
  function PacketReplies(order: Order, receiver: End, listing: seq<nat>): ForkJoin.Replies {
    ForkJoin.Replies(Some(listing),
                     (q: seq<nat>) => Some(Filter(q, (s: nat) => IsUnreceived(order, receiver, s))),
                     Some(receiver.nextRecv))
  }

  /** `UnrelayedSequences`, one direction. */
  function Pending(order: Order, receiver: End, listing: seq<nat>): seq<nat> {
    ForkJoin.Sequential(ForkJoin.Sequences(order), PacketReplies(order, receiver, listing))
  }

  /** `UnrelayedAcknowledgements`, one direction; `listing` lists the acks the receiver wrote. */
  function PendingAcks(sender: End, listing: seq<nat>): seq<nat> {
    ForkJoin.Sequential(
      ForkJoin.Acknowledgements,
      ForkJoin.Replies(Some(listing), (q: seq<nat>) => Some(Filter(q, (s: nat) => s in sender.commitments)), None))
  }

  // ---- Queues -------------------------------------------------------------------

  /** The latest block of a chain, as a relayer sees it. */
  datatype Moment = Moment(height: nat, time: nat)

  function Tip(chain: seq<End>): Moment
    requires chain != []
  {
    Moment(|chain| - 1, Last(chain).time)
  }

  /**
    `ValidatePacket`: the relayer gives a packet up when the receiver's height has reached its
    timeout height or the time is past its timestamp; at the very timestamp it still relays.
   */
  predicate Lapsed(sender: End, seen: Moment, s: nat) {
    var d := DeadlineOf(sender, s);
    (d.height != 0 && seen.height >= d.height) || (d.timestamp > 0 && seen.time > d.timestamp)
  }

  function Live(sender: End, seen: Moment, q: seq<nat>): seq<nat> {
    Filter(q, (s: nat) => !Lapsed(sender, seen, s))
  }

  function Dead(sender: End, seen: Moment, q: seq<nat>): seq<nat> {
    Filter(q, (s: nat) => Lapsed(sender, seen, s))
  }

  function Recvs(q: seq<nat>, h: nat): seq<Msg> { seq(|q|, i requires 0 <= i < |q| => Recv(q[i], h)) }

  function Timeouts(q: seq<nat>, h: nat): seq<Msg> { seq(|q|, i requires 0 <= i < |q| => Timeout(q[i], h)) }

  function Acks(q: seq<nat>, h: nat): seq<Msg> { seq(|q|, i requires 0 <= i < |q| => Ack(q[i], h)) }

  /** `PrependMsgUpdateClient`: a non-empty queue starts with one update to the proof height. */
  function WithUpdate(queue: seq<Msg>, h: nat): seq<Msg> {
    if queue == [] then [] else [UpdateClient(h)] + queue
  }

  // ---- Sending ------------------------------------------------------------------

  function Bodies(ms: seq<Message<Msg>>): seq<Msg> {
    seq(|ms|, i requires 0 <= i < |ms| => ms[i].body)
  }

  /** Idle blocks, each so much later than the one before. */
  function Wait(chain: seq<End>, idle: seq<nat>): (c: seq<End>)
    requires chain != []
    ensures chain <= c && |c| == |chain| + |idle|
    ensures Last(c) == Last(chain).(time := Last(c).time) && Last(chain).time <= Last(c).time
  {
    if idle == [] then chain
    else
      var c := Wait(chain, idle[..|idle| - 1]);
      c + [Begin(Last(c), idle[|idle| - 1])]
  }

  /** When a batch gets into a block: after some idle blocks, in a block of its own. */
  datatype Slot = Slot(idle: seq<nat>, delay: nat)

  /** What a log of batches left on a chain, and which of them were accepted. */
  datatype Sent = Sent(chain: seq<End>, accepted: seq<bool>)

  /** Batch after batch, each a transaction; a rejected one changes nothing and the next is sent all the same. */
  function SendLog(order: Order, chain: seq<End>, peer: seq<End>, log: seq<seq<Message<Msg>>>, slots: nat -> Slot): (r: Sent)
    requires chain != []
    ensures chain <= r.chain && |r.accepted| == |log|
  {
    if log == [] then Sent(chain, [])
    else
      var before, slot := SendLog(order, chain, peer, log[..|log| - 1], slots), slots(|log| - 1);
      var c, msgs := Wait(before.chain, slot.idle), Bodies(log[|log| - 1]);
      Sent(c + [NextBlock(order, c, peer, slot.delay, Tx(msgs))],
           before.accepted + [RunTx(order, Begin(Last(c), slot.delay), |c|, peer, msgs).Some?])
  }

  predicate AllAccepted(accepted: seq<bool>) {
    forall k :: 0 <= k < |accepted| ==> accepted[k]
  }

  /** Exactly the batches that hold a message were accepted. */
  ghost predicate AcceptedUnlessEmpty(log: seq<seq<Message<Msg>>>, accepted: seq<bool>) {
    |accepted| == |log| && forall k :: 0 <= k < |log| ==> (accepted[k] <==> log[k] != [])
  }

  // ---- Transactions --------------------------------------------------------------

  lemma {:induction false} ExecConcat(order: Order, e: End, at: nat, peer: seq<End>, a: seq<Msg>, b: seq<Msg>)
    ensures ExecTx(order, e, at, peer, a + b) ==
            match ExecTx(order, e, at, peer, a)
            case None => None
            case Some(e') => ExecTx(order, e', at, peer, b)
    decreases |a|
  {
    if a == [] {
      assert a + b == b;
    } else {
      assert (a + b)[1..] == a[1..] + b;
      match Exec(order, e, at, peer, a[0])
      case None =>
      case Some(e') => ExecConcat(order, e', at, peer, a[1..], b);
    }
  }

  lemma {:induction false} ExecTime(order: Order, e: End, at: nat, peer: seq<End>, msgs: seq<Msg>)
    ensures ExecTx(order, e, at, peer, msgs).Some? ==> ExecTx(order, e, at, peer, msgs).value.time == e.time
    decreases |msgs|
  {
    if msgs != [] && Exec(order, e, at, peer, msgs[0]).Some? {
      ExecTime(order, Exec(order, e, at, peer, msgs[0]).value, at, peer, msgs[1..]);
    }
  }

  lemma ExecOneEarlier(order: Order, e: End, at: Moment, late: Moment, peer: seq<End>, m: Msg)
    requires at.height <= late.height && at.time <= late.time
    requires Exec(order, e.(time := late.time), late.height, peer, m).Some?
    ensures Exec(order, e.(time := at.time), at.height, peer, m)
         == Some(Exec(order, e.(time := late.time), late.height, peer, m).value.(time := at.time))
  {
  }

  /** What a later block still accepts, an earlier one accepts with the same effect. */
  lemma {:induction false} ExecEarlier(order: Order, e: End, at: Moment, late: Moment, peer: seq<End>, msgs: seq<Msg>)
    requires at.height <= late.height && at.time <= late.time
    requires ExecTx(order, e.(time := late.time), late.height, peer, msgs).Some?
    ensures ExecTx(order, e.(time := at.time), at.height, peer, msgs)
         == Some(ExecTx(order, e.(time := late.time), late.height, peer, msgs).value.(time := at.time))
    decreases |msgs|
  {
    if msgs != [] {
      ExecOneEarlier(order, e, at, late, peer, msgs[0]);
      var f := Exec(order, e.(time := late.time), late.height, peer, msgs[0]).value;
      OneMessage(order, e.(time := late.time), late.height, peer, msgs[0]);
      ExecTime(order, e.(time := late.time), late.height, peer, [msgs[0]]);
      assert f.(time := late.time) == f;
      ExecEarlier(order, f, at, late, peer, msgs[1..]);
    }
  }

  lemma OneMessage(order: Order, e: End, at: nat, peer: seq<End>, m: Msg)
    ensures ExecTx(order, e, at, peer, [m]) == Exec(order, e, at, peer, m)
  {
  }

  lemma BodiesConcat(a: seq<Message<Msg>>, b: seq<Message<Msg>>)
    ensures Bodies(a + b) == Bodies(a) + Bodies(b)
  {
  }

  /** The last batch of a log: where it lands, and what the batches before it left. */
  lemma LastLanding(order: Order, chain: seq<End>, peer: seq<End>, log: seq<seq<Message<Msg>>>, slots: nat -> Slot)
    returns (at: Moment)
    requires chain != [] && log != []
    ensures var before := SendLog(order, chain, peer, log[..|log| - 1], slots);
            var after, msgs := SendLog(order, chain, peer, log, slots), Bodies(log[|log| - 1]);
            var r := RunTx(order, Last(before.chain).(time := at.time), at.height, peer, msgs);
            && at.height == |after.chain| - 1 && at.time == Last(after.chain).time
            && |before.chain| <= at.height + 1 && Last(before.chain).time <= at.time
            && after.accepted == before.accepted + [r.Some?]
            && Last(after.chain) == if r.Some? then r.value else Last(before.chain).(time := at.time)
  {
    var before, slot := SendLog(order, chain, peer, log[..|log| - 1], slots), slots(|log| - 1);
    var c := Wait(before.chain, slot.idle);
    var e := Begin(Last(c), slot.delay);
    at := Moment(|c|, e.time);
    assert e == Last(before.chain).(time := at.time);
    ExecTime(order, e, |c|, peer, Bodies(log[|log| - 1]));
  }

  /** One batch, no later than a moment at which its messages would be accepted. */
  lemma BatchIsTaken(order: Order, f: End, at: Moment, late: Moment, peer: seq<End>, msgs: seq<Msg>)
    requires at.height <= late.height && at.time <= late.time && f.time == late.time
    requires ExecTx(order, f, late.height, peer, msgs).Some?
    ensures var r := RunTx(order, f.(time := at.time), at.height, peer, msgs);
            && (r.Some? <==> msgs != [])
            && (if r.Some? then r.value else f.(time := at.time))
            == ExecTx(order, f, late.height, peer, msgs).value.(time := at.time)
  {
    assert f.(time := late.time) == f;
    ExecEarlier(order, f, at, late, peer, msgs);
  }

  lemma AcceptedSnoc(log: seq<seq<Message<Msg>>>, accepted: seq<bool>, ok: bool)
    requires log != [] && AcceptedUnlessEmpty(log[..|log| - 1], accepted) && (ok <==> log[|log| - 1] != [])
    ensures AcceptedUnlessEmpty(log, accepted + [ok])
  {
  }

  /**
    However a queue is cut into batches, whatever the gaps between them: if one transaction as
    late as the last of them would be accepted, every batch with a message is, and the chain
    ends as if it had been that one transaction.
   */
  lemma {:induction false} BatchesActAsOne(order: Order, chain: seq<End>, peer: seq<End>, log: seq<seq<Message<Msg>>>,
                                           slots: nat -> Slot, late: Moment)
    requires chain != []
    requires var r := SendLog(order, chain, peer, log, slots).chain; |r| - 1 <= late.height && Last(r).time <= late.time
    requires ExecTx(order, Last(chain).(time := late.time), late.height, peer, Bodies(Flatten(log))).Some?
    ensures AcceptedUnlessEmpty(log, SendLog(order, chain, peer, log, slots).accepted)
    ensures var r := Last(SendLog(order, chain, peer, log, slots).chain);
            r == ExecTx(order, Last(chain).(time := late.time), late.height, peer, Bodies(Flatten(log))).value.(time := r.time)
  {
    if log == [] {
      assert Bodies(Flatten(log)) == [];
    } else {
      var front, back := log[..|log| - 1], log[|log| - 1];
      var e := Last(chain).(time := late.time);
      BodiesConcat(Flatten(front), back);
      ExecConcat(order, e, late.height, peer, Bodies(Flatten(front)), Bodies(back));
      var at := LastLanding(order, chain, peer, log, slots);
      BatchesActAsOne(order, chain, peer, front, slots, late);
      var f := ExecTx(order, e, late.height, peer, Bodies(Flatten(front))).value;
      ExecTime(order, e, late.height, peer, Bodies(Flatten(front)));
      BatchIsTaken(order, f, at, late, peer, Bodies(back));
      assert |Bodies(back)| == |back|;
      AcceptedSnoc(log, SendLog(order, chain, peer, front, slots).accepted, back != []);
    }
  }

  lemma QueueIsSent(order: Order, chain: seq<End>, peer: seq<End>, log: seq<seq<Message<Msg>>>, slots: nat -> Slot,
                    queue: seq<Msg>, e: End)
    requires chain != [] && Bodies(Flatten(log)) == queue
    requires var late := Tip(SendLog(order, chain, peer, log, slots).chain);
             ExecTx(order, Last(chain).(time := late.time), late.height, peer, queue) == Some(e)
    ensures AcceptedUnlessEmpty(log, SendLog(order, chain, peer, log, slots).accepted)
    ensures Last(SendLog(order, chain, peer, log, slots).chain) == e
  {
    var late := Tip(SendLog(order, chain, peer, log, slots).chain);
    BatchesActAsOne(order, chain, peer, log, slots, late);
    ExecTime(order, Last(chain).(time := late.time), late.height, peer, queue);
  }

  // ---- Where and when a batch lands -----------------------------------------------------

  function Total(delays: seq<nat>): nat {
    if delays == [] then 0 else Total(delays[..|delays| - 1]) + delays[|delays| - 1]
  }

  /** The block of the k-th batch, for a chain whose latest block is `start`; what is accepted does not matter. */
  function Land(start: Moment, slots: nat -> Slot, k: nat): Moment {
    if k == 0 then start
    else
      var m, slot := Land(start, slots, k - 1), slots(k - 1);
      Moment(m.height + |slot.idle| + 1, m.time + Total(slot.idle) + slot.delay)
  }

  lemma {:induction false} WaitTime(chain: seq<End>, idle: seq<nat>)
    requires chain != []
    ensures Last(Wait(chain, idle)).time == Last(chain).time + Total(idle)
  {
    if idle != [] {
      WaitTime(chain, idle[..|idle| - 1]);
    }
  }

  lemma {:induction false} LandsAt(order: Order, chain: seq<End>, peer: seq<End>, log: seq<seq<Message<Msg>>>, slots: nat -> Slot)
    requires chain != []
    ensures Tip(SendLog(order, chain, peer, log, slots).chain) == Land(Tip(chain), slots, |log|)
  {
    if log != [] {
      var before, slot := SendLog(order, chain, peer, log[..|log| - 1], slots).chain, slots(|log| - 1);
      var c := Wait(before, slot.idle);
      LandsAt(order, chain, peer, log[..|log| - 1], slots);
      WaitTime(before, slot.idle);
      ExecTime(order, Begin(Last(c), slot.delay), |c|, peer, Bodies(log[|log| - 1]));
    }
  }

  /** The first `cut` messages of a client update followed by `body`. */
  ghost predicate Prefix(log: seq<seq<Message<Msg>>>, h: nat, body: seq<Msg>, cut: nat) {
    cut <= |body| + 1 && Bodies(Flatten(log)) == ([UpdateClient(h)] + body)[..cut]
  }

  /** How much of the body that is. */
  function Reach(cut: nat): nat { if cut == 0 then 0 else cut - 1 }

  /** A piece of the body, with the update in front of it or not. */
  ghost predicate IsSlice(b: seq<Msg>, h: nat, part: seq<Msg>) {
    b == part || b == [UpdateClient(h)] + part
  }

  /** Where the last batch begins, and that it is a slice. */
  lemma LastSlice(log: seq<seq<Message<Msg>>>, h: nat, body: seq<Msg>, cut: nat) returns (cut': nat)
    requires log != [] && Prefix(log, h, body, cut)
    ensures cut' <= cut && Prefix(log[..|log| - 1], h, body, cut')
    ensures IsSlice(Bodies(log[|log| - 1]), h, body[Reach(cut')..Reach(cut)])
  {
    var front, back := log[..|log| - 1], log[|log| - 1];
    var queue := [UpdateClient(h)] + body;
    BodiesConcat(Flatten(front), back);
    var a, b := Bodies(Flatten(front)), Bodies(back);
    cut' := |a|;
    assert a + b == queue[..cut];
    assert a == queue[..cut'] by { assert a == (a + b)[..cut']; }
    assert b == queue[cut'..cut] by { assert b == (a + b)[cut'..]; }
    if cut' == 0 < cut {
      assert b == [UpdateClient(h)] + body[0..cut - 1];
    } else {
      assert b == body[Reach(cut')..Reach(cut)];
    }
  }

  lemma WholeQueue(log: seq<seq<Message<Msg>>>, h: nat, body: seq<Msg>) returns (cut: nat)
    requires Bodies(Flatten(log)) == WithUpdate(body, h)
    ensures Prefix(log, h, body, cut) && Reach(cut) == |body|
  {
    var queue := [UpdateClient(h)] + body;
    cut := if body == [] then 0 else |body| + 1;
    assert queue[..|body| + 1] == queue;
  }

  // ---- Whole queues on one end ------------------------------------------------------

  ghost function SetOf(q: seq<nat>): set<nat> { set s | s in q }

  lemma SetOfSnoc(q: seq<nat>)
    requires q != []
    ensures SetOf(q) == SetOf(q[..|q| - 1]) + {q[|q| - 1]}
  {
  }

  ghost predicate AckReady(e: End, peer: seq<End>, h: nat, q: seq<nat>) {
    && e.open && Known(e, peer, h) && NoDup(q)
    && forall s :: s in q ==> s in e.commitments && s in peer[h].acks
  }

  ghost function Acked(e: End, q: seq<nat>): End {
    e.(commitments := e.commitments - SetOf(q), acked := e.acked + q)
  }

  lemma {:induction false} AckQueue(e: End, at: nat, peer: seq<End>, h: nat, q: seq<nat>)
    requires AckReady(e, peer, h, q)
    ensures ExecTx(Unordered, e, at, peer, Acks(q, h)) == Some(Acked(e, q))
  {
    if q == [] {
      assert Acks(q, h) == [];
      assert Acked(e, q) == e;
    } else {
      var p, s := q[..|q| - 1], q[|q| - 1];
      assert q == p + [s] && s !in p;
      assert forall t :: t in p ==> t in q;
      AckQueue(e, at, peer, h, p);
      assert Acks(q, h) == Acks(p, h) + [Ack(s, h)];
      ExecConcat(Unordered, e, at, peer, Acks(p, h), [Ack(s, h)]);
      SetOfSnoc(q);
      var f := Acked(e, p);
      OneMessage(Unordered, f, at, peer, Ack(s, h));
      assert f.commitments - {s} == e.commitments - SetOf(q) && f.acked + [s] == e.acked + q;
    }
  }

  lemma AnotherMember(q: seq<nat>, one: nat) returns (other: nat)
    requires NoDup(q) && |q| > 1
    ensures other in q && other != one
  {
    other := if q[0] != one then q[0] else q[1];
  }

  // ---- Filters -----------------------------------------------------------------------

  lemma {:induction false} FilterMembers(q: seq<nat>, keep: nat -> bool, s: nat)
    ensures s in Filter(q, keep) <==> s in q && keep(s)
  {
    if q != [] {
      FilterMembers(q[..|q| - 1], keep, s);
      assert q == q[..|q| - 1] + [q[|q| - 1]];
    }
  }

  lemma {:induction false} FilterNoDup(q: seq<nat>, keep: nat -> bool)
    requires NoDup(q)
    ensures NoDup(Filter(q, keep))
  {
    if q != [] {
      var p, s := q[..|q| - 1], q[|q| - 1];
      assert q == p + [s] && s !in p;
      FilterNoDup(p, keep);
      FilterMembers(p, keep, s);
      if keep(s) {
        NoDupAppend(Filter(p, keep), s);
      }
    }
  }

  /** On an unordered channel the pending packets are the outstanding ones without a receipt. */
  lemma PendingMembers(receiver: End, listing: seq<nat>, members: set<nat>)
    requires Lists(listing, members)
    ensures NoDup(Pending(Unordered, receiver, listing))
    ensures forall s :: s in Pending(Unordered, receiver, listing) <==> s in members && s !in receiver.receipts
  {
    var keep := (s: nat) => IsUnreceived(Unordered, receiver, s);
    FilterNoDup(listing, keep);
    assert Pending(Unordered, receiver, listing) == Filter(listing, keep);
    forall s: nat
      ensures s in Filter(listing, keep) <==> s in members && s !in receiver.receipts
    {
      FilterMembers(listing, keep, s);
    }
  }

  lemma LiveDeadMembers(sender: End, seen: Moment, q: seq<nat>)
    requires NoDup(q)
    ensures NoDup(Live(sender, seen, q)) && NoDup(Dead(sender, seen, q))
    ensures forall s :: s in Live(sender, seen, q) <==> s in q && !Lapsed(sender, seen, s)
    ensures forall s :: s in Dead(sender, seen, q) <==> s in q && Lapsed(sender, seen, s)
  {
    var live, dead := (s: nat) => !Lapsed(sender, seen, s), (s: nat) => Lapsed(sender, seen, s);
    FilterNoDup(q, live);
    FilterNoDup(q, dead);
    forall s: nat
      ensures s in Filter(q, live) <==> s in q && !Lapsed(sender, seen, s)
      ensures s in Filter(q, dead) <==> s in q && Lapsed(sender, seen, s)
    {
      FilterMembers(q, live, s);
      FilterMembers(q, dead, s);
    }
  }

  lemma PendingAckMembers(sender: End, listing: seq<nat>, members: set<nat>)
    requires Lists(listing, members)
    ensures NoDup(PendingAcks(sender, listing))
    ensures forall s :: s in PendingAcks(sender, listing) <==> s in members && s in sender.commitments
  {
    var keep := (s: nat) => s in sender.commitments;
    FilterNoDup(listing, keep);
    assert PendingAcks(sender, listing) == Filter(listing, keep);
    forall s: nat
      ensures s in Filter(listing, keep) <==> s in members && s in sender.commitments
    {
      FilterMembers(listing, keep, s);
    }
  }
}
