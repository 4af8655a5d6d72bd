/**
  Acknowledgement phases on an ordered channel: what any listing, cut into any batches,
  leaves behind, and exactly when nothing is rejected.
 */
module OrderedAcks {
  import opened Types
  import opened Packets
  import opened Batching
  import opened Relay
  import opened Rounds

  // ---- A queue of acknowledgements -------------------------------------------------------

  /** `q` is `from`, `from + 1`, ... */
  ghost predicate Consecutive(q: seq<nat>, from: nat) {
    forall i :: 0 <= i < |q| ==> q[i] == from + i
  }

  lemma ConsecutiveFront(q: seq<nat>, from: nat)
    requires q != []
    ensures Consecutive(q, from) <==> q[0] == from && Consecutive(q[1..], from + 1)
  {
  }

  /** The end after it was acknowledged the packets `q`. */
  ghost function Credited(e: End, q: seq<nat>): End {
    e.(nextAck := e.nextAck + |q|, acked := e.acked + q, commitments := e.commitments - SetOf(q))
  }

  /** The first ack, when it is the next one. */
  lemma FirstAck(e: End, at: nat, peer: seq<End>, h: nat, q: seq<nat>)
    requires AckReady(e, peer, h, q) && q != [] && q[0] == e.nextAck
    ensures var r := Exec(Ordered, e, at, peer, Ack(q[0], h));
            r.Some? && AckReady(r.value, peer, h, q[1..]) && r.value.nextAck == e.nextAck + 1
            && Credited(r.value, q[1..]) == Credited(e, q)
  {
    var s, p := q[0], q[1..];
    assert q == [s] + p;
    assert forall t :: t in p ==> t in q && t != s;
    assert SetOf(q) == {s} + SetOf(p);
    var f := Exec(Ordered, e, at, peer, Ack(s, h)).value;
    assert f.commitments - SetOf(p) == e.commitments - SetOf(q);
    assert f.acked + p == e.acked + q;
  }

  /** An ordered end accepts exactly the acks that come next, in sequence. */
  lemma {:induction false} OrderedAckQueue(e: End, at: nat, peer: seq<End>, h: nat, q: seq<nat>)
    requires AckReady(e, peer, h, q)
    ensures ExecTx(Ordered, e, at, peer, Acks(q, h)) == if Consecutive(q, e.nextAck) then Some(Credited(e, q)) else None
    decreases |q|
  {
    if q == [] {
      assert Acks(q, h) == [];
      assert Credited(e, q) == e;
    } else {
      ConsecutiveFront(q, e.nextAck);
      assert q[0] in q;
      assert Acks(q, h)[0] == Ack(q[0], h) && Acks(q, h)[1..] == Acks(q[1..], h);
      if q[0] == e.nextAck {
        FirstAck(e, at, peer, h, q);
        OrderedAckQueue(Exec(Ordered, e, at, peer, Ack(q[0], h)).value, at, peer, h, q[1..]);
      }
    }
  }

  // ---- One batch ---------------------------------------------------------------------------

  /** What decides about acknowledgements: the next expected one, and whether the light client knows the proof height. */
  datatype View = View(next: nat, known: bool)

  /** The acks of a batch, which may start with the client update. */
  function AcksOf(b: seq<Msg>): seq<nat> {
    var acks := if b != [] && b[0].UpdateClient? then b[1..] else b;
    seq(|acks|, i requires 0 <= i < |acks| => if acks[i].Ack? then acks[i].s else 0)
  }

  /** A batch is taken when it is not empty, its proofs can be checked, and its acks come next, in sequence. */
  ghost predicate Takes(v: View, b: seq<Msg>) {
    b != [] && (v.known || b[0].UpdateClient?) && Consecutive(AcksOf(b), v.next)
  }

  ghost function Viewed(v: View, b: seq<Msg>): View {
    if Takes(v, b) then View(v.next + |AcksOf(b)|, true) else v
  }

  /** The acks `q` are written at height `h`, and still waited for. */
  ghost predicate Owed(e: End, peer: seq<End>, h: nat, q: seq<nat>) {
    h < |peer| && e.open && NoDup(q) && forall s :: s in q ==> s in e.commitments && s in peer[h].acks
  }

  lemma SliceAcks(b: seq<Msg>, h: nat, q: seq<nat>)
    requires IsSlice(b, h, Acks(q, h))
    ensures AcksOf(b) == q
  {
  }

  /** The light client learns the height with an update. */
  ghost function Learned(e: End, h: nat, known: bool): End {
    if known then e.(heights := e.heights + {h}) else e
  }

  lemma UnknownAck(e: End, at: nat, peer: seq<End>, h: nat, q: seq<nat>)
    requires Owed(e, peer, h, q) && h !in e.heights && q != []
    ensures ExecTx(Ordered, e, at, peer, Acks(q, h)) == None
  {
    assert q[0] in q;
    assert Acks(q, h)[0] == Ack(q[0], h);
  }

  /** Exactly when one batch is accepted, and what it does. */
  lemma OneBatch(e: End, at: nat, peer: seq<End>, h: nat, q: seq<nat>, b: seq<Msg>)
    requires Owed(e, peer, h, q) && IsSlice(b, h, Acks(q, h))
    ensures var v := View(e.nextAck, h in e.heights);
            RunTx(Ordered, e, at, peer, b) == if Takes(v, b) then Some(Credited(Learned(e, h, true), q)) else None
  {
    SliceAcks(b, h, q);
    var f := Learned(e, h, true);
    if b != [] && b[0].UpdateClient? {
      assert b == [UpdateClient(h)] + Acks(q, h);
      ExecConcat(Ordered, e, at, peer, [UpdateClient(h)], Acks(q, h));
      OneMessage(Ordered, e, at, peer, UpdateClient(h));
      OrderedAckQueue(f, at, peer, h, q);
    } else {
      assert b == Acks(q, h);
      if h in e.heights {
        assert f == e;
        OrderedAckQueue(e, at, peer, h, q);
      } else if q != [] {
        UnknownAck(e, at, peer, h, q);
      }
    }
  }

  // ---- A log of batches ------------------------------------------------------------------------

  /** The view after a log of batches. */
  ghost function ViewAfter(v: View, log: seq<seq<Message<Msg>>>): View {
    if log == [] then v else Viewed(ViewAfter(v, log[..|log| - 1]), Bodies(log[|log| - 1]))
  }

  /** The acks of the batches that are taken. */
  ghost function Taken(v: View, log: seq<seq<Message<Msg>>>): seq<nat> {
    if log == [] then []
    else
      var front, b := log[..|log| - 1], Bodies(log[|log| - 1]);
      Taken(v, front) + (if Takes(ViewAfter(v, front), b) then AcksOf(b) else [])
  }

  /** Each batch was accepted exactly when it is one that is taken. */
  ghost predicate Judged(v: View, log: seq<seq<Message<Msg>>>, accepted: seq<bool>) {
    && |accepted| == |log|
    && (log != [] ==>
         var k := |log| - 1;
         && Judged(v, log[..k], accepted[..k])
         && (accepted[k] <==> Takes(ViewAfter(v, log[..k]), Bodies(log[k]))))
  }

  ghost function ViewOf(e: End, h: nat): View { View(e.nextAck, h in e.heights) }

  lemma AckSlice(q: seq<nat>, h: nat, i: nat, j: nat)
    requires i <= j <= |q|
    ensures |Acks(q, h)| == |q| && Acks(q, h)[i..j] == Acks(q[i..j], h)
  {
  }

  /** What a log has made of the end `e`. */
  ghost predicate Leaves(e: End, h: nat, q: seq<nat>, cut: nat, log: seq<seq<Message<Msg>>>, f: End) {
    var v, t := ViewAfter(ViewOf(e, h), log), Taken(ViewOf(e, h), log);
    && f == Credited(Learned(e, h, v.known), t).(time := f.time)
    && v == ViewOf(f, h)
    && Consecutive(t, e.nextAck)
    && cut <= |q| + 1
    && forall s :: s in t ==> s in q[..Reach(cut)]
  }

  lemma CreditTwice(e: End, h: nat, known: bool, t: seq<nat>, q: seq<nat>, time: nat)
    ensures var f := Credited(Learned(e, h, known), t).(time := time);
            Credited(Learned(f, h, true), q) == Credited(Learned(e, h, true), t + q).(time := time)
  {
  }

  lemma StillOwed(e: End, peer: seq<End>, h: nat, q: seq<nat>, cut': nat, cut: nat, log: seq<seq<Message<Msg>>>, f: End)
    requires Owed(e, peer, h, q) && Leaves(e, h, q, cut', log, f) && cut' <= cut <= |q| + 1
    ensures Owed(f, peer, h, q[Reach(cut')..Reach(cut)])
  {
    var p := q[Reach(cut')..Reach(cut)];
    forall s | s in p
      ensures s in f.commitments && s in peer[h].acks
    {
      assert s in q && s !in q[..Reach(cut')];
    }
  }

  lemma ConsecutiveConcat(t: seq<nat>, q: seq<nat>, from: nat)
    requires Consecutive(t, from) && Consecutive(q, from + |t|)
    ensures Consecutive(t + q, from)
  {
  }

  /** One more batch: taken or not, the log still leaves what it should. */
  lemma LeavesMore(e: End, peer: seq<End>, h: nat, q: seq<nat>, cut': nat, cut: nat, log: seq<seq<Message<Msg>>>, f: End, at: Moment)
    requires log != [] && cut' <= cut <= |q| + 1 && Owed(e, peer, h, q) && Leaves(e, h, q, cut', log[..|log| - 1], f)
    requires IsSlice(Bodies(log[|log| - 1]), h, Acks(q[Reach(cut')..Reach(cut)], h))
    ensures var b := Bodies(log[|log| - 1]);
            var r := RunTx(Ordered, f.(time := at.time), at.height, peer, b);
            && (r.Some? <==> Takes(ViewAfter(ViewOf(e, h), log[..|log| - 1]), b))
            && Leaves(e, h, q, cut, log, if r.Some? then r.value else f.(time := at.time))
  {
    var front, b, p := log[..|log| - 1], Bodies(log[|log| - 1]), q[Reach(cut')..Reach(cut)];
    var g := f.(time := at.time);
    assert Leaves(e, h, q, cut', front, g);
    StillOwed(e, peer, h, q, cut', cut, front, g);
    OneBatch(g, at.height, peer, h, p, b);
    SliceAcks(b, h, p);
    if Takes(ViewAfter(ViewOf(e, h), front), b) {
      TakenLeaves(e, h, q, cut', cut, log, g, p);
    } else {
      RefusedLeaves(e, h, q, cut', cut, log, g);
    }
  }

  lemma RefusedLeaves(e: End, h: nat, q: seq<nat>, cut': nat, cut: nat, log: seq<seq<Message<Msg>>>, g: End)
    requires log != [] && cut' <= cut <= |q| + 1 && Leaves(e, h, q, cut', log[..|log| - 1], g)
    requires !Takes(ViewAfter(ViewOf(e, h), log[..|log| - 1]), Bodies(log[|log| - 1]))
    ensures Leaves(e, h, q, cut, log, g)
  {
    var t := Taken(ViewOf(e, h), log[..|log| - 1]);
    MoreTaken(q, t, [], cut', cut);
    assert Taken(ViewOf(e, h), log) == t;
  }

  lemma TakenLeaves(e: End, h: nat, q: seq<nat>, cut': nat, cut: nat, log: seq<seq<Message<Msg>>>, g: End, p: seq<nat>)
    requires log != [] && cut' <= cut <= |q| + 1 && Leaves(e, h, q, cut', log[..|log| - 1], g)
    requires p == q[Reach(cut')..Reach(cut)] && AcksOf(Bodies(log[|log| - 1])) == p
    requires Takes(ViewAfter(ViewOf(e, h), log[..|log| - 1]), Bodies(log[|log| - 1]))
    ensures Leaves(e, h, q, cut, log, Credited(Learned(g, h, true), p))
  {
    var front := log[..|log| - 1];
    var v, t := ViewAfter(ViewOf(e, h), front), Taken(ViewOf(e, h), front);
    CreditTwice(e, h, v.known, t, p, g.time);
    ConsecutiveConcat(t, p, e.nextAck);
    MoreTaken(q, t, p, cut', cut);
  }

  lemma MoreTaken(q: seq<nat>, t: seq<nat>, p: seq<nat>, cut': nat, cut: nat)
    requires cut' <= cut <= |q| + 1 && (p == [] || p == q[Reach(cut')..Reach(cut)])
    requires forall s :: s in t ==> s in q[..Reach(cut')]
    ensures forall s :: s in t || s in p ==> s in q[..Reach(cut)]
  {
  }

  lemma {:induction false} AckLogLeaves(chain: seq<End>, peer: seq<End>, h: nat, q: seq<nat>, cut: nat,
                                        log: seq<seq<Message<Msg>>>, slots: nat -> Slot)
    requires chain != [] && Owed(Last(chain), peer, h, q) && Prefix(log, h, Acks(q, h), cut)
    ensures var r := SendLog(Ordered, chain, peer, log, slots);
            Leaves(Last(chain), h, q, cut, log, Last(r.chain)) && Judged(ViewOf(Last(chain), h), log, r.accepted)
    decreases |log|
  {
    var e := Last(chain);
    if log == [] {
      assert Credited(Learned(e, h, h in e.heights), []) == e;
    } else {
      var front := log[..|log| - 1];
      var cut' := LastSlice(log, h, Acks(q, h), cut);
      AckSlice(q, h, Reach(cut'), Reach(cut));
      AckLogLeaves(chain, peer, h, q, cut', front, slots);
      var at := LastLanding(Ordered, chain, peer, log, slots);
      LeavesMore(e, peer, h, q, cut', cut, log, Last(SendLog(Ordered, chain, peer, front, slots).chain), at);
    }
  }

  // ---- Whole phases --------------------------------------------------------------------------------

  /** The acknowledgement queue of one chain, whatever the cut. */
  ghost predicate AckLogOf(chain: seq<End>, peer: seq<End>, q: seq<nat>, log: seq<seq<Message<Msg>>>) {
    && chain != [] && peer != [] && Owed(Last(chain), peer, |peer| - 1, q)
    && Bodies(Flatten(log)) == AckMsgs(peer, q)
  }

  /**
    What an acknowledgement queue leaves, for any listing and any cut: the batches that are
    taken are judged one by one, their acks continue the sequence, exactly those packets are
    acknowledged, and nothing else changes but the height the light client knows.
   */
  lemma AckRound(chain: seq<End>, peer: seq<End>, q: seq<nat>, log: seq<seq<Message<Msg>>>, slots: nat -> Slot)
    requires AckLogOf(chain, peer, q, log)
    ensures var r, e, h := SendLog(Ordered, chain, peer, log, slots), Last(chain), |peer| - 1;
            var v, t := ViewAfter(ViewOf(e, h), log), Taken(ViewOf(e, h), log);
            && Judged(ViewOf(e, h), log, r.accepted)
            && Last(r.chain) == Credited(Learned(e, h, v.known), t).(time := Last(r.chain).time)
            && Consecutive(t, e.nextAck) && (forall s :: s in t ==> s in q)
  {
    var cut := WholeQueue(log, |peer| - 1, Acks(q, |peer| - 1));
    AckSlice(q, |peer| - 1, 0, |q|);
    AckLogLeaves(chain, peer, |peer| - 1, q, cut, log, slots);
    assert q[..Reach(cut)] == q;
  }

  /** If only empty batches are refused, all acks are taken, in order. */
  lemma {:induction false} AllTaken(v: View, log: seq<seq<Message<Msg>>>, accepted: seq<bool>, h: nat, q: seq<nat>, cut: nat)
    requires Judged(v, log, accepted) && AcceptedUnlessEmpty(log, accepted) && Prefix(log, h, Acks(q, h), cut)
    ensures Taken(v, log) == q[..Reach(cut)]
    decreases |log|
  {
    if log == [] {
      assert Bodies(Flatten(log)) == [];
      assert cut == 0;
    } else {
      var k := |log| - 1;
      var cut' := LastSlice(log, h, Acks(q, h), cut);
      AckSlice(q, h, Reach(cut'), Reach(cut));
      AllTaken(v, log[..k], accepted[..k], h, q, cut');
      SliceAcks(Bodies(log[k]), h, q[Reach(cut')..Reach(cut)]);
      assert |Bodies(log[k])| == |log[k]|;
      assert q[..Reach(cut')] + q[Reach(cut')..Reach(cut)] == q[..Reach(cut)];
      if log[k] == [] {
        assert AcksOf(Bodies(log[k])) == [];
      }
    }
  }

  lemma ConsecutiveIsSent(chain: seq<End>, peer: seq<End>, q: seq<nat>, log: seq<seq<Message<Msg>>>, slots: nat -> Slot)
    requires AckLogOf(chain, peer, q, log) && Consecutive(q, Last(chain).nextAck)
    ensures AcceptedUnlessEmpty(log, SendLog(Ordered, chain, peer, log, slots).accepted)
  {
    var late, h := Tip(SendLog(Ordered, chain, peer, log, slots).chain), |peer| - 1;
    var e := Last(chain).(time := late.time);
    var f := e.(heights := e.heights + {h});
    OrderedAckQueue(f, late.height, peer, h, q);
    if q == [] {
      assert Acks(q, h) == [];
      QueueIsSent(Ordered, chain, peer, log, slots, [], e);
    } else {
      assert Acks(q, h) != [];
      UpdateFirst(Ordered, e, late.height, peer, h, Acks(q, h));
      QueueIsSent(Ordered, chain, peer, log, slots, AckMsgs(peer, q), Credited(f, q));
    }
  }

  /**
    The acks of one chain go through, but for empty batches, however they are cut, if and only if
    the store of the peer lists them in sequence from the next expected one.
   */
  lemma OrderedAcksIff(chain: seq<End>, peer: seq<End>, q: seq<nat>, log: seq<seq<Message<Msg>>>, slots: nat -> Slot)
    requires AckLogOf(chain, peer, q, log)
    ensures var r, e := SendLog(Ordered, chain, peer, log, slots), Last(chain);
            && (AcceptedUnlessEmpty(log, r.accepted) <==> Consecutive(q, e.nextAck))
            && (Consecutive(q, e.nextAck) ==>
                 Last(r.chain).acked == e.acked + q && Last(r.chain).commitments == e.commitments - SetOf(q))
  {
    var r := SendLog(Ordered, chain, peer, log, slots);
    var cut := WholeQueue(log, |peer| - 1, Acks(q, |peer| - 1));
    AckSlice(q, |peer| - 1, 0, |q|);
    AckRound(chain, peer, q, log, slots);
    if Consecutive(q, Last(chain).nextAck) {
      ConsecutiveIsSent(chain, peer, q, log, slots);
    }
    if AcceptedUnlessEmpty(log, r.accepted) {
      AllTaken(ViewOf(Last(chain), |peer| - 1), log, r.accepted, |peer| - 1, q, cut);
      assert q[..Reach(cut)] == q;
    }
  }

  /** In one batch, acks out of sequence are rejected and change nothing but the time. */
  lemma OneBatchRejected(chain: seq<End>, peer: seq<End>, q: seq<nat>, log: seq<seq<Message<Msg>>>, slots: nat -> Slot)
    requires AckLogOf(chain, peer, q, log) && |log| == 1 && !Consecutive(q, Last(chain).nextAck)
    ensures var r := SendLog(Ordered, chain, peer, log, slots);
            r.accepted == [false] && SameEnd(Last(chain), Last(r.chain))
  {
    var e, h, r := Last(chain), |peer| - 1, SendLog(Ordered, chain, peer, log, slots);
    AckRound(chain, peer, q, log, slots);
    var front, b := log[..0], Bodies(log[0]);
    assert front == [] && Flatten(log) == Flatten(front) + log[0] && Flatten(log) == log[0];
    assert IsSlice(b, h, Acks(q, h));
    SliceAcks(b, h, q);
    assert Taken(ViewOf(e, h), log) == [];
    assert Credited(Learned(e, h, h in e.heights), []) == e;
    assert r.accepted[0] == false;
  }
}
