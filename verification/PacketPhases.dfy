/**
  Packet phases over two chains, ordered or not: which batches are in time, which packets are
  lost otherwise, and when nothing but an empty batch is rejected.
 */
module PacketPhases {
  import opened Packets
  import opened Batching
  import opened Relay
  import opened Rounds
  import opened PacketRounds

  // ---- When messages go through ---------------------------------------------------------

  /** A timeout closes an ordered end, so nothing may come behind it. */
  predicate Orderly(order: Order, b: seq<Msg>)
    decreases |b|
  {
    b == [] || ((order.Ordered? && b[0].Timeout? ==> |b| == 1) && Orderly(order, b[1..]))
  }

  /** No packet of the batch has expired at the block the batch lands in. */
  ghost predicate BatchInTime(sender: End, b: seq<Msg>, at: Moment) {
    forall s :: s in RecvsIn(b) ==> !Expired(DeadlineOf(sender, s), at.height, at.time)
  }

  lemma {:induction false} OrderlyConcat(order: Order, a: seq<Msg>, b: seq<Msg>)
    ensures Orderly(order, a + b) <==>
            Orderly(order, a) && Orderly(order, b) && (order.Ordered? && TimeoutsIn(a) != [] ==> b == [])
    decreases |a|
  {
    if a == [] {
      assert a + b == b;
    } else {
      assert (a + b)[0] == a[0] && (a + b)[1..] == a[1..] + b;
      OrderlyConcat(order, a[1..], b);
    }
  }

  /** Packets go through if and only if the end is open, they are in time, and no timeout comes too early. */
  lemma {:induction false} GoesIff(order: Order, open: bool, b: seq<Msg>, h: nat, at: Moment, sender: End)
    requires OnlyPackets(b, h)
    ensures Goes(order, open, b, at, sender) <==> (b == [] || open) && BatchInTime(sender, b, at) && Orderly(order, b)
    decreases |b|
  {
    if b != [] {
      assert b[0].Recv? || b[0].Timeout?;
      assert OnlyPackets(b[1..], h);
      GoesIff(order, if b[0].Timeout? then order.Unordered? else open, b[1..], h, at, sender);
      assert RecvsIn(b) == (if b[0].Recv? then [b[0].s] else []) + RecvsIn(b[1..]);
    }
  }

  lemma SliceGoes(order: Order, open: bool, b: seq<Msg>, h: nat, part: seq<Msg>, at: Moment, sender: End)
    requires IsSlice(b, h, part) && OnlyPackets(part, h)
    ensures Goes(order, open, b, at, sender) <==> (part == [] || open) && BatchInTime(sender, b, at) && Orderly(order, b)
  {
    GoesIff(order, open, part, h, at, sender);
    SliceIn(b, h, part);
    if b != part {
      assert b[1..] == part;
    }
  }

  // ---- A log of batches --------------------------------------------------------------------

  /** Every batch lands in a block at which none of its packets has expired. */
  ghost predicate LogInTime(x: Setting, log: seq<seq<Message<Msg>>>)
    decreases |log|
  {
    log == [] ||
    (LogInTime(x, log[..|log| - 1]) && BatchInTime(x.sender, Bodies(log[|log| - 1]), Land(x.start, x.slots, |log|)))
  }

  /** What decides about the last batch when all before it were taken. */
  ghost predicate Through(x: Setting, g: Gate, log: seq<seq<Message<Msg>>>, cut: nat) {
    && Kept(x, g, log) == Bodies(Flatten(log))
    && GateAfter(x, g, log).open == (x.order.Unordered? || TimeoutsIn(Bodies(Flatten(log))) == [])
    && (cut > 0 ==> GateAfter(x, g, log).known)
  }

  /** Behind batches that were all taken, a batch is taken if it holds a message, is in time and keeps the log orderly. */
  lemma NextTaken(x: Setting, g: Gate, log: seq<seq<Message<Msg>>>, h: nat, body: seq<Msg>, cut': nat, cut: nat)
    requires log != [] && OnlyPackets(body, h) && Prefix(log, h, body, cut) && Prefix(log[..|log| - 1], h, body, cut') && cut' <= cut
    requires Through(x, g, log[..|log| - 1], cut') && Orderly(x.order, Bodies(Flatten(log[..|log| - 1])))
    requires IsSlice(Bodies(log[|log| - 1]), h, body[Reach(cut')..Reach(cut)])
    ensures LastTaken(x, g, log) <==>
            && log[|log| - 1] != [] && BatchInTime(x.sender, Bodies(log[|log| - 1]), Land(x.start, x.slots, |log|))
            && Orderly(x.order, Bodies(Flatten(log)))
  {
    var front, b, p := Bodies(Flatten(log[..|log| - 1])), Bodies(log[|log| - 1]), body[Reach(cut')..Reach(cut)];
    FirstHasUpdate(log, h, body, cut', cut);
    SlicePackets(body, h, Reach(cut'), Reach(cut));
    SliceGoes(x.order, GateAfter(x, g, log[..|log| - 1]).open, b, h, p, Land(x.start, x.slots, |log|), x.sender);
    BodiesConcat(Flatten(log[..|log| - 1]), log[|log| - 1]);
    OrderlyConcat(x.order, front, b);
    assert |b| == |log[|log| - 1]|;
    assert cut' == 0 ==> front == [];
  }

  /** The first batch that holds a message starts with the update. */
  lemma FirstHasUpdate(log: seq<seq<Message<Msg>>>, h: nat, body: seq<Msg>, cut': nat, cut: nat)
    requires log != [] && Prefix(log, h, body, cut) && Prefix(log[..|log| - 1], h, body, cut')
    ensures cut == cut' + |log[|log| - 1]|
    ensures cut' == 0 && log[|log| - 1] != [] ==> Bodies(log[|log| - 1])[0] == UpdateClient(h)
  {
    var front, back := log[..|log| - 1], log[|log| - 1];
    BodiesConcat(Flatten(front), back);
    assert |Bodies(Flatten(front))| == cut' && |Bodies(Flatten(log))| == cut && |Bodies(back)| == |back|;
    if cut' == 0 && back != [] {
      assert Bodies(Flatten(log))[0] == Bodies(back)[0];
    }
  }

  lemma ThroughMore(x: Setting, g: Gate, log: seq<seq<Message<Msg>>>, cut': nat, cut: nat)
    requires log != [] && Through(x, g, log[..|log| - 1], cut') && cut == cut' + |log[|log| - 1]|
    requires LastTaken(x, g, log) || log[|log| - 1] == []
    ensures Through(x, g, log, cut)
  {
    var front, back := log[..|log| - 1], log[|log| - 1];
    BodiesConcat(Flatten(front), back);
    InConcat(Bodies(Flatten(front)), Bodies(back));
    assert |Bodies(back)| == |back|;
  }

  /** While all batches are in time and in order, all that hold a message are taken. */
  lemma {:induction false} AllTaken(x: Setting, g: Gate, log: seq<seq<Message<Msg>>>, h: nat, body: seq<Msg>, cut: nat)
    requires g.open && OnlyPackets(body, h) && Prefix(log, h, body, cut)
    requires LogInTime(x, log) && Orderly(x.order, Bodies(Flatten(log)))
    ensures Through(x, g, log, cut)
    decreases |log|
  {
    if log == [] {
      assert Bodies(Flatten(log)) == [];
    } else {
      var front, back := log[..|log| - 1], log[|log| - 1];
      var cut' := LastSlice(log, h, body, cut);
      BodiesConcat(Flatten(front), back);
      OrderlyConcat(x.order, Bodies(Flatten(front)), Bodies(back));
      AllTaken(x, g, front, h, body, cut');
      NextTaken(x, g, log, h, body, cut', cut);
      FirstHasUpdate(log, h, body, cut', cut);
      ThroughMore(x, g, log, cut', cut);
    }
  }

  /** Only empty batches are rejected if and only if every batch is in time and no timeout comes too early. */
  lemma {:induction false} AcceptedIff(x: Setting, g: Gate, log: seq<seq<Message<Msg>>>, accepted: seq<bool>,
                                       h: nat, body: seq<Msg>, cut: nat)
    requires g.open && OnlyPackets(body, h) && Judged(x, g, log, accepted) && Prefix(log, h, body, cut)
    ensures AcceptedUnlessEmpty(log, accepted) <==> LogInTime(x, log) && Orderly(x.order, Bodies(Flatten(log)))
    decreases |log|
  {
    if log == [] {
      assert Bodies(Flatten(log)) == [];
    } else {
      var k := |log| - 1;
      var cut' := LastSlice(log, h, body, cut);
      AcceptedIff(x, g, log[..k], accepted[..k], h, body, cut');
      UnlessEmptySnoc(log, accepted);
      BodiesConcat(Flatten(log[..k]), log[k]);
      OrderlyConcat(x.order, Bodies(Flatten(log[..k])), Bodies(log[k]));
      if LogInTime(x, log[..k]) && Orderly(x.order, Bodies(Flatten(log[..k]))) {
        AllTaken(x, g, log[..k], h, body, cut');
        NextTaken(x, g, log, h, body, cut', cut);
        EmptyInTime(x.sender, log[k], Land(x.start, x.slots, |log|));
      }
    }
  }

  lemma EmptyInTime(sender: End, batch: seq<Message<Msg>>, at: Moment)
    ensures batch == [] ==> BatchInTime(sender, Bodies(batch), at) && Bodies(batch) == []
  {
  }

  lemma UnlessEmptySnoc(log: seq<seq<Message<Msg>>>, accepted: seq<bool>)
    requires log != [] && |accepted| == |log|
    ensures var k := |log| - 1;
            AcceptedUnlessEmpty(log, accepted) <==>
            AcceptedUnlessEmpty(log[..k], accepted[..k]) && (accepted[k] <==> log[k] != [])
  {
    var k := |log| - 1;
    if AcceptedUnlessEmpty(log[..k], accepted[..k]) && (accepted[k] <==> log[k] != []) {
      AcceptedSnoc(log, accepted[..k], accepted[k]);
      assert accepted[..k] + [accepted[k]] == accepted;
    }
  }

  lemma {:induction false} KeptIsSent(x: Setting, g: Gate, log: seq<seq<Message<Msg>>>, s: nat)
    ensures s in RecvsIn(Kept(x, g, log)) ==> s in RecvsIn(Bodies(Flatten(log)))
    decreases |log|
  {
    if log != [] {
      var front, b := log[..|log| - 1], Bodies(log[|log| - 1]);
      KeptIsSent(x, g, front, s);
      BodiesConcat(Flatten(front), log[|log| - 1]);
      InConcat(Bodies(Flatten(front)), b);
      InConcat(Kept(x, g, front), if LastTaken(x, g, log) then b else []);
    }
  }

  lemma NoDupConcat(a: seq<nat>, b: seq<nat>)
    requires NoDup(a + b)
    ensures NoDup(a) && forall s :: s in a ==> s !in b
  {
    var q := a + b;
    assert forall i :: 0 <= i < |a| ==> a[i] == q[i];
    assert forall i :: 0 <= i < |b| ==> b[i] == q[|a| + i];
  }

  /** A late packet keeps its batch from going through, whatever else is in it. */
  lemma {:induction false} LateStops(order: Order, open: bool, b: seq<Msg>, at: Moment, sender: End, s: nat)
    requires s in RecvsIn(b) && Expired(DeadlineOf(sender, s), at.height, at.time)
    ensures !Goes(order, open, b, at, sender)
    decreases |b|
  {
    var rest := RecvsIn(b[1..]);
    assert RecvsIn(b) == (if b[0].Recv? then [b[0].s] else []) + rest;
    if s in rest {
      LateStops(order, if b[0].Timeout? then order.Unordered? else open, b[1..], at, sender, s);
    }
  }

  /** A log that is late loses a packet. */
  lemma {:induction false} LateLoses(x: Setting, g: Gate, log: seq<seq<Message<Msg>>>) returns (s: nat)
    requires !LogInTime(x, log) && NoDup(RecvsIn(Bodies(Flatten(log))))
    ensures s in RecvsIn(Bodies(Flatten(log))) && s !in RecvsIn(Kept(x, g, log))
    decreases |log|
  {
    var front, b, at := log[..|log| - 1], Bodies(log[|log| - 1]), Land(x.start, x.slots, |log|);
    var sent, kept := RecvsIn(Bodies(Flatten(front))), Kept(x, g, front);
    BodiesConcat(Flatten(front), log[|log| - 1]);
    InConcat(Bodies(Flatten(front)), b);
    NoDupConcat(sent, RecvsIn(b));
    InConcat(kept, if LastTaken(x, g, log) then b else []);
    if !LogInTime(x, front) {
      s := LateLoses(x, g, front);
    } else {
      s :| s in RecvsIn(b) && Expired(DeadlineOf(x.sender, s), at.height, at.time);
      LateStops(x.order, GateAfter(x, g, front).open, b, at, x.sender, s);
      KeptIsSent(x, g, front, s);
    }
  }

  // ---- Judged live, and too late all the same --------------------------------------------------------------

  /** The relayer takes a packet for live that has expired at that very block exactly at the packet's timestamp. */
  lemma LiveButExpiredIff(sender: End, seen: Moment, s: nat)
    ensures var d := DeadlineOf(sender, s);
            !Lapsed(sender, seen, s) && Expired(d, seen.height, seen.time) <==>
            d.timestamp != 0 && seen.time == d.timestamp && (d.height == 0 || seen.height < d.height)
  {
  }

  lemma {:induction false} LandRises(start: Moment, slots: nat -> Slot, k: nat)
    ensures start.height <= Land(start, slots, k).height && start.time <= Land(start, slots, k).time
  {
    if k > 0 {
      LandRises(start, slots, k - 1);
    }
  }

  /** A packet that has expired before anything is sent makes the log late, however it is cut. */
  lemma {:induction false} ExpiredIsLate(x: Setting, log: seq<seq<Message<Msg>>>, s: nat)
    requires s in RecvsIn(Bodies(Flatten(log))) && Expired(DeadlineOf(x.sender, s), x.start.height, x.start.time)
    ensures !LogInTime(x, log)
    decreases |log|
  {
    if log != [] {
      var front, b := log[..|log| - 1], Bodies(log[|log| - 1]);
      BodiesConcat(Flatten(front), log[|log| - 1]);
      InConcat(Bodies(Flatten(front)), b);
      LandRises(x.start, x.slots, |log|);
      if s in RecvsIn(Bodies(Flatten(front))) {
        ExpiredIsLate(x, front, s);
      }
    }
  }

  /** A log is in time if none of its packets has expired by its last block. */
  lemma {:induction false} InTimeByEnd(x: Setting, log: seq<seq<Message<Msg>>>, late: Moment)
    requires Land(x.start, x.slots, |log|).height <= late.height && Land(x.start, x.slots, |log|).time <= late.time
    requires BatchInTime(x.sender, Bodies(Flatten(log)), late)
    ensures LogInTime(x, log)
    decreases |log|
  {
    if log != [] {
      var front, b := log[..|log| - 1], Bodies(log[|log| - 1]);
      BodiesConcat(Flatten(front), log[|log| - 1]);
      InConcat(Bodies(Flatten(front)), b);
      InTimeByEnd(x, front, late);
    }
  }

  // ---- One chain's part of a phase --------------------------------------------------------------

  lemma UpdateIn(body: seq<Msg>, h: nat)
    ensures RecvsIn(WithUpdate(body, h)) == RecvsIn(body) && TimeoutsIn(WithUpdate(body, h)) == TimeoutsIn(body)
  {
    if body != [] {
      assert ([UpdateClient(h)] + body)[1..] == body;
    }
  }

  /** What the messages have done to an end: receives delivered, timeouts cleared, an ordered end closed behind one. */
  ghost predicate Carried(order: Order, e: End, e': End, kept: seq<Msg>) {
    && e'.commitments == e.commitments - SetOf(TimeoutsIn(kept)) && e'.timedOut == e.timedOut + TimeoutsIn(kept)
    && e'.acks == e.acks + SetOf(RecvsIn(kept)) && e'.delivered == e.delivered + RecvsIn(kept)
    && (order.Unordered? ==> e'.receipts == e.receipts + SetOf(RecvsIn(kept)))
    && e'.sent == e.sent && e'.acked == e.acked && e'.nextAck == e.nextAck
    && e'.open == (e.open && (order.Unordered? || TimeoutsIn(kept) == []))
  }

  /** One chain's part of a packet phase; `e` is its end before the phase. */
  lemma SideCarries(order: Order, e: End, self: seq<End>, peer: seq<End>, mine: seq<nat>, theirs: seq<nat>, first: bool,
                    log: seq<seq<Message<Msg>>>, slots: nat -> Slot)
    requires self != [] && peer != [] && SameEnd(e, Last(self))
    requires PendingFor(order, Last(self), Last(peer), mine) && PendingFor(order, Last(peer), Last(self), theirs)
    requires Bodies(Flatten(log)) == PacketQueue(self, peer, mine, theirs, first)
    ensures var r, kept := SendLog(order, self, peer, log, slots), KeptBy(order, self, peer, log, slots);
            && Carried(order, e, Last(r.chain), kept)
            && (forall s :: s in RecvsIn(kept) ==> s in Live(Last(peer), Tip(self), theirs))
            && (forall s :: s in TimeoutsIn(kept) ==> s in Dead(Last(self), Tip(peer), mine))
  {
    PacketSide(order, self, peer, mine, theirs, first, log, slots);
    AppliedFields(order, Last(self), KeptBy(order, self, peer, log, slots));
  }

  lemma {:induction false} OrderlyWithout(order: Order, b: seq<Msg>)
    requires order.Unordered? || TimeoutsIn(b) == []
    ensures Orderly(order, b)
    decreases |b|
  {
    if b != [] {
      OrderlyWithout(order, b[1..]);
    }
  }

  /** There is at most one packet to relay in each direction of an ordered channel. */
  lemma OneDead(order: Order, sender: End, receiver: End, seen: Moment, q: seq<nat>)
    requires order.Ordered? && PendingFor(order, sender, receiver, q)
    ensures |Dead(sender, seen, q)| <= 1
  {
    LiveDeadMembers(sender, seen, q);
    if Dead(sender, seen, q) != [] {
      OnlyOne(Dead(sender, seen, q), receiver.nextRecv);
    }
  }

  /** A queue is out of order only where the source has a packet to time out and one to receive. */
  lemma QueueOrderly(order: Order, self: seq<End>, peer: seq<End>, mine: seq<nat>, theirs: seq<nat>, first: bool)
    requires self != [] && peer != [] && PendingFor(order, Last(self), Last(peer), mine)
    ensures var dead, live := Dead(Last(self), Tip(peer), mine), Live(Last(peer), Tip(self), theirs);
            Orderly(order, PacketQueue(self, peer, mine, theirs, first)) <==>
            order.Unordered? || !first || dead == [] || live == []
  {
    var h := |peer| - 1;
    var dead, live := Dead(Last(self), Tip(peer), mine), Live(Last(peer), Tip(self), theirs);
    var t, r, body := Timeouts(dead, h), Recvs(live, h), PacketBody(self, peer, mine, theirs, first);
    UpdateOrderly(order, body, h);
    if order.Unordered? {
      OrderlyWithout(order, body);
    } else {
      OneDead(order, Last(self), Last(peer), Tip(peer), mine);
      RecvsInRecvs(live, h);
      TimeoutsInTimeouts(dead, h);
      OrderlyWithout(order, r);
      OrderlyConcat(order, t, r);
      OrderlyConcat(order, r, t);
    }
  }

  lemma UpdateOrderly(order: Order, body: seq<Msg>, h: nat)
    ensures Orderly(order, WithUpdate(body, h)) <==> Orderly(order, body)
  {
    if body != [] {
      assert ([UpdateClient(h)] + body)[1..] == body;
    }
  }

  /** Only empty batches are rejected if and only if every batch is in time and the queue in order. */
  lemma SideJudged(order: Order, self: seq<End>, peer: seq<End>, mine: seq<nat>, theirs: seq<nat>, first: bool,
                   log: seq<seq<Message<Msg>>>, slots: nat -> Slot)
    requires self != [] && peer != [] && Last(self).open
    requires PendingFor(order, Last(self), Last(peer), mine) && PendingFor(order, Last(peer), Last(self), theirs)
    requires Bodies(Flatten(log)) == PacketQueue(self, peer, mine, theirs, first)
    ensures AcceptedUnlessEmpty(log, SendLog(order, self, peer, log, slots).accepted) <==>
            LogInTime(SettingOf(order, self, peer, slots), log) && Orderly(order, PacketQueue(self, peer, mine, theirs, first))
  {
    var body, h := PacketBody(self, peer, mine, theirs, first), |peer| - 1;
    PacketSide(order, self, peer, mine, theirs, first, log, slots);
    BodyIn(self, peer, mine, theirs, first);
    var cut := WholeQueue(log, h, body);
    AcceptedIff(SettingOf(order, self, peer, slots), GateOf(Last(self), h), log,
                SendLog(order, self, peer, log, slots).accepted, h, body, cut);
  }

  /** Some live packet is not received. */
  ghost predicate Loses(live: seq<nat>, kept: seq<Msg>) {
    exists s :: s in live && s !in RecvsIn(kept)
  }

  /** In time and in order, everything is taken; not in time, some receive is lost. */
  lemma SideTakes(order: Order, self: seq<End>, peer: seq<End>, mine: seq<nat>, theirs: seq<nat>, first: bool,
                  log: seq<seq<Message<Msg>>>, slots: nat -> Slot)
    requires self != [] && peer != [] && Last(self).open && NoDup(theirs)
    requires Bodies(Flatten(log)) == PacketQueue(self, peer, mine, theirs, first)
    ensures var x, kept := SettingOf(order, self, peer, slots), KeptBy(order, self, peer, log, slots);
            var live, dead := Live(Last(peer), Tip(self), theirs), Dead(Last(self), Tip(peer), mine);
            && (LogInTime(x, log) && Orderly(order, PacketQueue(self, peer, mine, theirs, first)) ==>
                  RecvsIn(kept) == live && TimeoutsIn(kept) == dead)
            && (!LogInTime(x, log) ==> Loses(live, kept))
  {
    var x, g, h := SettingOf(order, self, peer, slots), GateOf(Last(self), |peer| - 1), |peer| - 1;
    var body := PacketBody(self, peer, mine, theirs, first);
    BodyIn(self, peer, mine, theirs, first);
    UpdateIn(body, h);
    if LogInTime(x, log) {
      if Orderly(order, PacketQueue(self, peer, mine, theirs, first)) {
        var cut := WholeQueue(log, h, body);
        AllTaken(x, g, log, h, body, cut);
      }
    } else {
      LiveDeadMembers(Last(peer), Tip(self), theirs);
      var s := LateLoses(x, g, log);
    }
  }

  /** One direction: the packets `q` are not given up, and their log is in time. */
  lemma DirectionOnTime(order: Order, sender: seq<End>, receiver: seq<End>, q: seq<nat>, theirs: seq<nat>, first: bool,
                        log: seq<seq<Message<Msg>>>, slots: nat -> Slot)
    requires sender != [] && receiver != [] && NoDup(q)
    requires Bodies(Flatten(log)) == PacketQueue(receiver, sender, theirs, q, first)
    requires var late := Tip(SendLog(order, receiver, sender, log, slots).chain);
             forall s :: s in q ==> !Expired(DeadlineOf(Last(sender), s), late.height, late.time)
    ensures Dead(Last(sender), Tip(receiver), q) == [] && LogInTime(SettingOf(order, receiver, sender, slots), log)
  {
    var late := Tip(SendLog(order, receiver, sender, log, slots).chain);
    LandsAt(order, receiver, sender, log, slots);
    LandRises(Tip(receiver), slots, |log|);
    NoneGivenUp(Last(sender), Tip(receiver), late, q);
    QueueLive(receiver, sender, theirs, q, first, late);
    InTimeByEnd(SettingOf(order, receiver, sender, slots), log, late);
  }

  lemma NoneGivenUp(sender: End, seen: Moment, late: Moment, q: seq<nat>)
    requires NoDup(q) && seen.height <= late.height && seen.time <= late.time
    requires forall s :: s in q ==> !Expired(DeadlineOf(sender, s), late.height, late.time)
    ensures Dead(sender, seen, q) == []
  {
    LiveDeadMembers(sender, seen, q);
    NoMembers(Dead(sender, seen, q));
  }

  lemma QueueLive(receiver: seq<End>, sender: seq<End>, theirs: seq<nat>, q: seq<nat>, first: bool, late: Moment)
    requires sender != [] && receiver != [] && NoDup(q)
    requires forall s :: s in q ==> !Expired(DeadlineOf(Last(sender), s), late.height, late.time)
    ensures BatchInTime(Last(sender), PacketQueue(receiver, sender, theirs, q, first), late)
  {
    LiveDeadMembers(Last(sender), Tip(receiver), q);
    BodyIn(receiver, sender, theirs, q, first);
    UpdateIn(PacketBody(receiver, sender, theirs, q, first), |sender| - 1);
  }

  // ---- Both chains -----------------------------------------------------------------------------

  /** The messages either chain takes in a packet phase. */
  ghost function SrcKept(n: Net, p: Plan): seq<Msg>
    requires n.src != [] && n.dst != []
  {
    KeptBy(n.order, Built(n, p).src, Built(n, p).dst, p.srcLog, p.srcSlots)
  }

  ghost function DstKept(n: Net, p: Plan): seq<Msg>
    requires n.src != [] && n.dst != []
  {
    KeptBy(n.order, Built(n, p).dst, Built(n, p).src, p.dstLog, p.dstSlots)
  }

  /** Every batch lands in a block at which none of its packets has expired. */
  ghost predicate PhaseInTime(n: Net, p: Plan)
    requires n.src != [] && n.dst != []
  {
    var m := Built(n, p);
    && LogInTime(SettingOf(n.order, m.src, m.dst, p.srcSlots), p.srcLog)
    && LogInTime(SettingOf(n.order, m.dst, m.src, p.dstSlots), p.dstLog)
  }

  /** The source packets a phase gives up or relays. */
  function DeadMine(n: Net, p: Plan): seq<nat>
    requires n.src != [] && n.dst != []
  {
    Dead(Last(Built(n, p).src), Tip(Built(n, p).dst), Mine(n, p))
  }

  function LiveMine(n: Net, p: Plan): seq<nat>
    requires n.src != [] && n.dst != []
  {
    Live(Last(Built(n, p).src), Tip(Built(n, p).dst), Mine(n, p))
  }

  function DeadTheirs(n: Net, p: Plan): seq<nat>
    requires n.src != [] && n.dst != []
  {
    Dead(Last(Built(n, p).dst), Tip(Built(n, p).src), Theirs(n, p))
  }

  function LiveTheirs(n: Net, p: Plan): seq<nat>
    requires n.src != [] && n.dst != []
  {
    Live(Last(Built(n, p).dst), Tip(Built(n, p).src), Theirs(n, p))
  }

  lemma PhasePending(n: Net, p: Plan)
    requires n.src != [] && n.dst != [] && PacketPlan(n, p)
    ensures var m := Built(n, p);
            && PendingFor(n.order, Last(m.src), Last(m.dst), Mine(n, p))
            && PendingFor(n.order, Last(m.dst), Last(m.src), Theirs(n, p))
  {
    var q := Asked(n, p);
    BuiltEnds(n, p);
    FoundPending(n.order, Last(q.src), Last(q.dst), p.srcList);
    FoundPending(n.order, Last(q.dst), Last(q.src), p.dstList);
  }

  /** On an ordered channel the source queue must not hold a receive behind a timeout. */
  ghost predicate PhaseOrderly(n: Net, p: Plan)
    requires n.src != [] && n.dst != []
  {
    n.order.Unordered? || DeadMine(n, p) == [] || LiveTheirs(n, p) == []
  }

  /**
    A packet phase, whatever expires on the way: either chain carries out exactly the messages of
    the batches it takes, which deliver only live packets and time out only dead ones.
   */
  lemma PhaseCarries(n: Net, p: Plan)
    requires n.src != [] && n.dst != [] && PacketPlan(n, p)
    ensures Carried(n.order, Last(n.src), Last(After(n, p).src), SrcKept(n, p))
    ensures Carried(n.order, Last(n.dst), Last(After(n, p).dst), DstKept(n, p))
    ensures forall s :: s in RecvsIn(DstKept(n, p)) ==> s in LiveMine(n, p)
    ensures forall s :: s in TimeoutsIn(SrcKept(n, p)) ==> s in DeadMine(n, p)
    ensures forall s :: s in RecvsIn(SrcKept(n, p)) ==> s in LiveTheirs(n, p)
    ensures forall s :: s in TimeoutsIn(DstKept(n, p)) ==> s in DeadTheirs(n, p)
  {
    var m := Built(n, p);
    PhasePending(n, p);
    BuiltEnds(n, p);
    SideCarries(n.order, Last(n.src), m.src, m.dst, Mine(n, p), Theirs(n, p), true, p.srcLog, p.srcSlots);
    SideCarries(n.order, Last(n.dst), m.dst, m.src, Theirs(n, p), Mine(n, p), false, p.dstLog, p.dstSlots);
  }

  /** On an open channel only empty batches are rejected if and only if every batch is in time and the source queue in order. */
  lemma PhaseJudged(n: Net, p: Plan)
    requires n.src != [] && n.dst != [] && PacketPlan(n, p) && Last(n.src).open && Last(n.dst).open
    ensures OnlyEmptyRejected(n, p) <==> PhaseInTime(n, p) && PhaseOrderly(n, p)
  {
    var m := Built(n, p);
    PhasePending(n, p);
    BuiltEnds(n, p);
    SideJudged(n.order, m.src, m.dst, Mine(n, p), Theirs(n, p), true, p.srcLog, p.srcSlots);
    SideJudged(n.order, m.dst, m.src, Theirs(n, p), Mine(n, p), false, p.dstLog, p.dstSlots);
    QueueOrderly(n.order, m.src, m.dst, Mine(n, p), Theirs(n, p), true);
    QueueOrderly(n.order, m.dst, m.src, Theirs(n, p), Mine(n, p), false);
  }

  /** Then the phase delivers all live packets and times out all dead ones; one that is late loses a live packet. */
  lemma PhaseTakes(n: Net, p: Plan)
    requires n.src != [] && n.dst != [] && PacketPlan(n, p) && Last(n.src).open && Last(n.dst).open
    ensures PhaseInTime(n, p) && PhaseOrderly(n, p) ==>
      && RecvsIn(DstKept(n, p)) == LiveMine(n, p) && TimeoutsIn(SrcKept(n, p)) == DeadMine(n, p)
      && RecvsIn(SrcKept(n, p)) == LiveTheirs(n, p) && TimeoutsIn(DstKept(n, p)) == DeadTheirs(n, p)
    ensures !PhaseInTime(n, p) ==>
      Loses(LiveMine(n, p), DstKept(n, p)) || Loses(LiveTheirs(n, p), SrcKept(n, p))
  {
    var m := Built(n, p);
    PhasePending(n, p);
    BuiltEnds(n, p);
    SideTakes(n.order, m.src, m.dst, Mine(n, p), Theirs(n, p), true, p.srcLog, p.srcSlots);
    SideTakes(n.order, m.dst, m.src, Theirs(n, p), Mine(n, p), false, p.dstLog, p.dstSlots);
    QueueOrderly(n.order, m.src, m.dst, Mine(n, p), Theirs(n, p), true);
    QueueOrderly(n.order, m.dst, m.src, Theirs(n, p), Mine(n, p), false);
  }
}
