/**
  Packet phases, on ordered and unordered channels alike: which batches of a packet queue a
  chain accepts, for any cut and any gaps between the batches, and what they leave behind.
 */
module PacketRounds {
  import opened Types
  import opened Packets
  import opened Batching
  import opened Relay
  import opened Rounds

  // ---- Messages of a packet queue ------------------------------------------------------

  function RecvsIn(b: seq<Msg>): seq<nat> {
    if b == [] then [] else (if b[0].Recv? then [b[0].s] else []) + RecvsIn(b[1..])
  }

  function TimeoutsIn(b: seq<Msg>): seq<nat> {
    if b == [] then [] else (if b[0].Timeout? then [b[0].s] else []) + TimeoutsIn(b[1..])
  }

  ghost predicate OnlyPackets(b: seq<Msg>, h: nat) {
    forall i :: 0 <= i < |b| ==> (b[i].Recv? || b[i].Timeout?) && b[i].height == h
  }

  lemma {:induction false} InConcat(a: seq<Msg>, b: seq<Msg>)
    ensures RecvsIn(a + b) == RecvsIn(a) + RecvsIn(b) && TimeoutsIn(a + b) == TimeoutsIn(a) + TimeoutsIn(b)
    decreases |a|
  {
    if a == [] {
      assert a + b == b;
    } else {
      assert (a + b)[0] == a[0] && (a + b)[1..] == a[1..] + b;
      InConcat(a[1..], b);
      Associate(if a[0].Recv? then [a[0].s] else [], RecvsIn(a[1..]), RecvsIn(b));
      Associate(if a[0].Timeout? then [a[0].s] else [], TimeoutsIn(a[1..]), TimeoutsIn(b));
    }
  }

  /** What the messages do to an end when nothing stands against them. */
  function Apply(order: Order, e: End, m: Msg): End {
    match m
    case UpdateClient(h) => e.(heights := e.heights + {h})
    case Recv(s, _) =>
      if order.Unordered? then e.(receipts := e.receipts + {s}, acks := e.acks + {s}, delivered := e.delivered + [s])
      else e.(nextRecv := s + 1, acks := e.acks + {s}, delivered := e.delivered + [s])
    case Timeout(s, _) => TimeoutExecuted(order, e, s)
    case _ => e
  }

  function Applied(order: Order, e: End, b: seq<Msg>): End
    decreases |b|
  {
    if b == [] then e else Applied(order, Apply(order, e, b[0]), b[1..])
  }

  lemma {:induction false} AppliedConcat(order: Order, e: End, a: seq<Msg>, b: seq<Msg>)
    ensures Applied(order, e, a + b) == Applied(order, Applied(order, e, a), b)
    decreases |a|
  {
    if a == [] {
      assert a + b == b;
    } else {
      assert (a + b)[1..] == a[1..] + b;
      AppliedConcat(order, Apply(order, e, a[0]), a[1..], b);
    }
  }

  lemma {:induction false} AppliedLater(order: Order, e: End, b: seq<Msg>, time: nat)
    ensures Applied(order, e.(time := time), b) == Applied(order, e, b).(time := time)
    decreases |b|
  {
    if b != [] {
      assert Apply(order, e.(time := time), b[0]) == Apply(order, e, b[0]).(time := time);
      AppliedLater(order, Apply(order, e, b[0]), b[1..], time);
    }
  }

  // ---- When a batch goes through -----------------------------------------------------------

  /**
    The messages go through one after the other: a receive needs an open end and a packet that
    has not expired at the block it lands in, a timeout needs an open end and closes an ordered
    one behind it.
   */
  predicate Goes(order: Order, open: bool, b: seq<Msg>, at: Moment, sender: End)
    decreases |b|
  {
    b == [] ||
    match b[0]
    case Recv(s, _) => open && !Expired(DeadlineOf(sender, s), at.height, at.time) && Goes(order, open, b[1..], at, sender)
    case Timeout(_, _) => open && Goes(order, order.Unordered?, b[1..], at, sender)
    case _ => Goes(order, open, b[1..], at, sender)
  }

  /** What the queries and the chains guarantee about the messages: proofs, receipts and sequence numbers are right. */
  ghost predicate Ready(order: Order, e: End, peer: seq<End>, h: nat, b: seq<Msg>) {
    && h < |peer| && OnlyPackets(b, h) && NoDup(RecvsIn(b)) && NoDup(TimeoutsIn(b))
    && (forall s :: s in RecvsIn(b) ==>
          s in peer[h].commitments && (if order.Unordered? then s !in e.receipts else s == e.nextRecv))
    && (forall s :: s in TimeoutsIn(b) ==>
          s in e.commitments && Expired(DeadlineOf(e, s), h, peer[h].time) && Absent(order, peer[h], s))
  }

  lemma NoDupTail(q: seq<nat>)
    requires q != [] && NoDup(q)
    ensures NoDup(q[1..]) && q[0] !in q[1..]
  {
  }

  /** A sequence number that is expected cannot be expected twice. */
  lemma OnlyOne(q: seq<nat>, s: nat)
    requires NoDup(q) && (forall t :: t in q ==> t == s) && q != []
    ensures |q| == 1
  {
    if |q| > 1 {
      var other := AnotherMember(q, s);
      assert false;
    }
  }

  lemma ReadyTail(order: Order, e: End, peer: seq<End>, h: nat, b: seq<Msg>)
    requires Ready(order, e, peer, h, b) && b != []
    ensures Ready(order, Apply(order, e, b[0]), peer, h, b[1..])
  {
    var m, rest := b[0], b[1..];
    var f := Apply(order, e, m);
    assert forall s :: DeadlineOf(f, s) == DeadlineOf(e, s);
    if m.Recv? {
      assert RecvsIn(b)[1..] == RecvsIn(rest) && TimeoutsIn(b) == TimeoutsIn(rest);
      NoDupTail(RecvsIn(b));
      assert m.s in RecvsIn(b) && forall s :: s in RecvsIn(rest) ==> s in RecvsIn(b);
      if order.Ordered? {
        OnlyOne(RecvsIn(b), e.nextRecv);
      }
    } else {
      assert TimeoutsIn(b)[1..] == TimeoutsIn(rest) && RecvsIn(b) == RecvsIn(rest);
      NoDupTail(TimeoutsIn(b));
      assert m.s in TimeoutsIn(b) && forall s :: s in TimeoutsIn(rest) ==> s in TimeoutsIn(b);
    }
  }

  lemma ExecOne(order: Order, e: End, at: nat, peer: seq<End>, h: nat, b: seq<Msg>)
    requires Ready(order, e, peer, h, b) && b != [] && h in e.heights
    ensures var m := b[0];
            Exec(order, e, at, peer, m) ==
            if e.open && (m.Recv? ==> !Expired(DeadlineOf(peer[h], m.s), at, e.time)) then Some(Apply(order, e, m)) else None
  {
    var m := b[0];
    if m.Recv? {
      assert m.s in RecvsIn(b);
    } else {
      assert m.s in TimeoutsIn(b);
    }
  }

  /** Exactly when the messages are accepted, and what they do. */
  lemma {:induction false} ExecGoes(order: Order, e: End, at: nat, peer: seq<End>, h: nat, b: seq<Msg>)
    requires Ready(order, e, peer, h, b) && h in e.heights
    ensures ExecTx(order, e, at, peer, b)
         == if Goes(order, e.open, b, Moment(at, e.time), peer[h]) then Some(Applied(order, e, b)) else None
    decreases |b|
  {
    if b != [] {
      ExecOne(order, e, at, peer, h, b);
      ReadyTail(order, e, peer, h, b);
      ExecGoes(order, Apply(order, e, b[0]), at, peer, h, b[1..]);
    }
  }

  // ---- One batch -------------------------------------------------------------------------------

  /** What decides about a batch: whether the light client knows the proof height, and whether the end is open. */
  datatype Gate = Gate(known: bool, open: bool)

  predicate Takes(order: Order, g: Gate, b: seq<Msg>, at: Moment, sender: End) {
    b != [] && (g.known || b[0].UpdateClient?) && Goes(order, g.open, b, at, sender)
  }

  ghost function GateOf(e: End, h: nat): Gate { Gate(h in e.heights, e.open) }

  lemma UnknownRejects(order: Order, e: End, at: nat, peer: seq<End>, h: nat, b: seq<Msg>)
    requires Ready(order, e, peer, h, b) && b != [] && h !in e.heights
    ensures ExecTx(order, e, at, peer, b) == None
  {
  }

  /** Exactly when one batch is accepted, and what it does. */
  lemma OneBatch(order: Order, e: End, at: nat, peer: seq<End>, h: nat, part: seq<Msg>, b: seq<Msg>)
    requires Ready(order, e, peer, h, part) && IsSlice(b, h, part)
    ensures RunTx(order, e, at, peer, b)
         == if Takes(order, GateOf(e, h), b, Moment(at, e.time), peer[h]) then Some(Applied(order, e, b)) else None
  {
    if b != [] && b[0].UpdateClient? {
      assert b == [UpdateClient(h)] + part && b[1..] == part;
      var f := Apply(order, e, UpdateClient(h));
      ExecConcat(order, e, at, peer, [UpdateClient(h)], part);
      OneMessage(order, e, at, peer, UpdateClient(h));
      ExecGoes(order, f, at, peer, h, part);
    } else {
      assert b == part;
      if h in e.heights {
        ExecGoes(order, e, at, peer, h, part);
      } else if b != [] {
        UnknownRejects(order, e, at, peer, h, part);
      }
    }
  }

  // ---- A log of batches ---------------------------------------------------------------------------

  /** Who sends to whom, and when: everything a log is judged by, but for the log. */
  datatype Setting = Setting(order: Order, sender: End, start: Moment, slots: nat -> Slot)

  /** The last batch of the log is taken. */
  ghost predicate LastTaken(x: Setting, g: Gate, log: seq<seq<Message<Msg>>>)
    requires log != []
    decreases |log|, 0
  {
    Takes(x.order, GateAfter(x, g, log[..|log| - 1]), Bodies(log[|log| - 1]), Land(x.start, x.slots, |log|), x.sender)
  }

  ghost function GateAfter(x: Setting, g: Gate, log: seq<seq<Message<Msg>>>): Gate
    decreases |log|, 1
  {
    if log == [] then g
    else
      var before, b := GateAfter(x, g, log[..|log| - 1]), Bodies(log[|log| - 1]);
      if LastTaken(x, g, log) then Gate(true, before.open && (x.order.Unordered? || TimeoutsIn(b) == [])) else before
  }

  /** The messages of the batches that are taken. */
  ghost function Kept(x: Setting, g: Gate, log: seq<seq<Message<Msg>>>): seq<Msg>
    decreases |log|
  {
    if log == [] then []
    else Kept(x, g, log[..|log| - 1]) + (if LastTaken(x, g, log) then Bodies(log[|log| - 1]) else [])
  }

  /** Each batch was accepted exactly when it is one that is taken. */
  ghost predicate Judged(x: Setting, g: Gate, log: seq<seq<Message<Msg>>>, accepted: seq<bool>)
    decreases |log|
  {
    && |accepted| == |log|
    && (log != [] ==>
         Judged(x, g, log[..|log| - 1], accepted[..|log| - 1]) && (accepted[|log| - 1] <==> LastTaken(x, g, log)))
  }

  /** The messages say nothing about packets beyond the first `reach` messages of the body. */
  ghost predicate Within(b: seq<Msg>, body: seq<Msg>, reach: nat)
    requires reach <= |body|
  {
    && (forall s :: s in RecvsIn(b) ==> s in RecvsIn(body[..reach]))
    && (forall s :: s in TimeoutsIn(b) ==> s in TimeoutsIn(body[..reach]))
  }

  /** What a log has made of the end `e`. */
  ghost predicate Leaves(x: Setting, e: End, h: nat, body: seq<Msg>, cut: nat, log: seq<seq<Message<Msg>>>, f: End) {
    && cut <= |body| + 1
    && f == Applied(x.order, e, Kept(x, GateOf(e, h), log)).(time := f.time)
    && GateOf(f, h) == GateAfter(x, GateOf(e, h), log)
    && Within(Kept(x, GateOf(e, h), log), body, Reach(cut))
  }

  // ---- The fields that readiness is about --------------------------------------------------------

  lemma {:induction false} AppliedFields(order: Order, e: End, b: seq<Msg>)
    ensures var f := Applied(order, e, b);
            && f.sent == e.sent && f.commitments == e.commitments - SetOf(TimeoutsIn(b))
            && (order.Unordered? ==> f.receipts == e.receipts + SetOf(RecvsIn(b)))
            && (order.Ordered? && RecvsIn(b) == [] ==> f.nextRecv == e.nextRecv)
            && f.delivered == e.delivered + RecvsIn(b) && f.timedOut == e.timedOut + TimeoutsIn(b)
            && f.acks == e.acks + SetOf(RecvsIn(b)) && f.acked == e.acked && f.nextAck == e.nextAck
            && f.time == e.time && f.open == (e.open && (order.Unordered? || TimeoutsIn(b) == []))
    decreases |b|
  {
    if b == [] {
      assert SetOf([]) == {};
    } else {
      var g := Apply(order, e, b[0]);
      AppliedFields(order, g, b[1..]);
      FieldsStep(order, e, b);
    }
  }

  lemma SetCons(s: nat, q: seq<nat>)
    ensures SetOf([s] + q) == {s} + SetOf(q)
  {
  }

  lemma FieldsStep(order: Order, e: End, b: seq<Msg>)
    requires b != []
    ensures var g, r, t := Apply(order, e, b[0]), RecvsIn(b[1..]), TimeoutsIn(b[1..]);
            && g.commitments - SetOf(t) == e.commitments - SetOf(TimeoutsIn(b))
            && (order.Unordered? ==> g.receipts + SetOf(r) == e.receipts + SetOf(RecvsIn(b)))
            && g.delivered + r == e.delivered + RecvsIn(b) && g.timedOut + t == e.timedOut + TimeoutsIn(b)
            && g.acks + SetOf(r) == e.acks + SetOf(RecvsIn(b))
  {
    var m, r, t := b[0], RecvsIn(b[1..]), TimeoutsIn(b[1..]);
    if m.Recv? {
      assert RecvsIn(b) == [m.s] + r && TimeoutsIn(b) == t;
      SetCons(m.s, r);
      OneReceived(e, m.s, r);
    } else if m.Timeout? {
      assert TimeoutsIn(b) == [m.s] + t && RecvsIn(b) == r;
      SetCons(m.s, t);
      OneTimedOut(e, m.s, t);
    } else {
      assert RecvsIn(b) == r && TimeoutsIn(b) == t;
    }
  }

  lemma OneReceived(e: End, s: nat, r: seq<nat>)
    ensures (e.receipts + {s}) + SetOf(r) == e.receipts + ({s} + SetOf(r))
    ensures (e.acks + {s}) + SetOf(r) == e.acks + ({s} + SetOf(r))
    ensures (e.delivered + [s]) + r == e.delivered + ([s] + r)
  {
  }

  lemma OneTimedOut(e: End, s: nat, t: seq<nat>)
    ensures (e.commitments - {s}) - SetOf(t) == e.commitments - ({s} + SetOf(t))
    ensures (e.timedOut + [s]) + t == e.timedOut + ([s] + t)
  {
  }

  lemma {:induction false} AppliedHeights(order: Order, e: End, h: nat, b: seq<Msg>, part: seq<Msg>)
    requires IsSlice(b, h, part) && OnlyPackets(part, h)
    ensures (h in Applied(order, e, b).heights) == (h in e.heights || (b != [] && b[0].UpdateClient?))
  {
    PacketHeights(order, if b == part then e else Apply(order, e, UpdateClient(h)), h, part);
    if b != part {
      assert b[1..] == part;
    }
  }

  lemma {:induction false} PacketHeights(order: Order, e: End, h: nat, part: seq<Msg>)
    requires OnlyPackets(part, h)
    ensures Applied(order, e, part).heights == e.heights
    decreases |part|
  {
    if part != [] {
      PacketHeights(order, Apply(order, e, part[0]), h, part[1..]);
    }
  }

  lemma InConcats(a: seq<Msg>, p: seq<Msg>, z: seq<Msg>)
    ensures RecvsIn((a + p) + z) == RecvsIn(a) + RecvsIn(p) + RecvsIn(z) && RecvsIn(a + p) == RecvsIn(a) + RecvsIn(p)
    ensures TimeoutsIn((a + p) + z) == TimeoutsIn(a) + TimeoutsIn(p) + TimeoutsIn(z)
    ensures TimeoutsIn(a + p) == TimeoutsIn(a) + TimeoutsIn(p)
  {
    InConcat(a, p);
    InConcat(a + p, z);
  }

  lemma NoDupParts(a: seq<nat>, p: seq<nat>, z: seq<nat>)
    requires NoDup(a + p + z)
    ensures NoDup(p) && forall s :: s in a ==> s !in p
  {
    var q := a + p + z;
    assert forall i :: 0 <= i < |p| ==> p[i] == q[|a| + i];
    assert forall i :: 0 <= i < |a| ==> a[i] == q[i];
  }

  /** A later part of the body is ready at an end to which only earlier messages were applied. */
  lemma ReadyPart(order: Order, e: End, peer: seq<End>, h: nat, a: seq<Msg>, p: seq<Msg>, z: seq<Msg>, kept: seq<Msg>, time: nat)
    requires Ready(order, e, peer, h, (a + p) + z)
    requires (forall s :: s in RecvsIn(kept) ==> s in RecvsIn(a)) && (forall s :: s in TimeoutsIn(kept) ==> s in TimeoutsIn(a))
    ensures Ready(order, Applied(order, e, kept).(time := time), peer, h, p)
  {
    var body, f := (a + p) + z, Applied(order, e, kept).(time := time);
    InConcats(a, p, z);
    NoDupParts(RecvsIn(a), RecvsIn(p), RecvsIn(z));
    NoDupParts(TimeoutsIn(a), TimeoutsIn(p), TimeoutsIn(z));
    AppliedFields(order, e, kept);
    SameDeadlines(e, f);
    PartPackets(a, p, z, h);
    if order.Ordered? && RecvsIn(p) != [] {
      NothingReceived(e, RecvsIn(body), RecvsIn(a), RecvsIn(p), RecvsIn(kept));
    }
  }

  lemma SameDeadlines(e: End, f: End)
    requires f.sent == e.sent
    ensures forall s :: DeadlineOf(f, s) == DeadlineOf(e, s)
  {
  }

  lemma PartPackets(a: seq<Msg>, p: seq<Msg>, z: seq<Msg>, h: nat)
    requires OnlyPackets((a + p) + z, h)
    ensures OnlyPackets(p, h)
  {
    assert forall i :: 0 <= i < |p| ==> p[i] == ((a + p) + z)[|a| + i];
  }

  /** On an ordered channel the one receive has not been used up before its turn. */
  lemma NothingReceived(e: End, all: seq<nat>, before: seq<nat>, part: seq<nat>, kept: seq<nat>)
    requires (forall s :: s in all ==> s == e.nextRecv) && (forall s :: s in before || s in part ==> s in all)
    requires (forall s :: s in before ==> s !in part) && part != [] && (forall s :: s in kept ==> s in before)
    ensures kept == []
  {
    assert part[0] in part;
    assert forall s :: s !in before;
    NoMembers(kept);
  }

  lemma NoMembers(q: seq<nat>)
    requires forall s :: s !in q
    ensures q == []
  {
    if q != [] {
      var s := AnyMember(q);
      assert false;
    }
  }

  lemma AnyMember(q: seq<nat>) returns (s: nat)
    requires q != []
    ensures s in q
  {
    s := q[0];
  }

  /** What is left of the body is still ready after the batches before it. */
  lemma StillReady(x: Setting, e: End, peer: seq<End>, h: nat, body: seq<Msg>, cut': nat, cut: nat, log: seq<seq<Message<Msg>>>, f: End)
    requires Ready(x.order, e, peer, h, body) && Leaves(x, e, h, body, cut', log, f) && cut' <= cut <= |body| + 1
    ensures Ready(x.order, f, peer, h, body[Reach(cut')..Reach(cut)])
  {
    var i, j := Reach(cut'), Reach(cut);
    var a, p, z := body[..i], body[i..j], body[j..];
    assert body == (a + p) + z;
    ReadyPart(x.order, e, peer, h, a, p, z, Kept(x, GateOf(e, h), log), f.time);
  }

  /** One more batch: taken or not, the log still leaves what it should. */
  lemma LeavesMore(x: Setting, e: End, peer: seq<End>, h: nat, body: seq<Msg>, cut': nat, cut: nat, log: seq<seq<Message<Msg>>>, f: End)
    requires log != [] && cut' <= cut <= |body| + 1 && Ready(x.order, e, peer, h, body) && x.sender == peer[h]
    requires Leaves(x, e, h, body, cut', log[..|log| - 1], f)
    requires IsSlice(Bodies(log[|log| - 1]), h, body[Reach(cut')..Reach(cut)])
    ensures var at, b := Land(x.start, x.slots, |log|), Bodies(log[|log| - 1]);
            var r := RunTx(x.order, f.(time := at.time), at.height, peer, b);
            && (r.Some? <==> LastTaken(x, GateOf(e, h), log))
            && Leaves(x, e, h, body, cut, log, if r.Some? then r.value else f.(time := at.time))
  {
    var at, b, p := Land(x.start, x.slots, |log|), Bodies(log[|log| - 1]), body[Reach(cut')..Reach(cut)];
    var g := f.(time := at.time);
    assert Leaves(x, e, h, body, cut', log[..|log| - 1], g);
    StillReady(x, e, peer, h, body, cut', cut, log[..|log| - 1], g);
    OneBatch(x.order, g, at.height, peer, h, p, b);
    if LastTaken(x, GateOf(e, h), log) {
      TakenLeaves(x, e, h, body, cut', cut, log, g, p);
    } else {
      RefusedLeaves(x, e, h, body, cut', cut, log, g);
    }
  }

  lemma WithinMore(b: seq<Msg>, body: seq<Msg>, i: nat, j: nat)
    requires i <= j <= |body| && Within(b, body, i)
    ensures Within(b, body, j)
  {
    assert body[..j] == body[..i] + body[i..j];
    InConcat(body[..i], body[i..j]);
  }

  lemma RefusedLeaves(x: Setting, e: End, h: nat, body: seq<Msg>, cut': nat, cut: nat, log: seq<seq<Message<Msg>>>, g: End)
    requires log != [] && cut' <= cut <= |body| + 1 && Leaves(x, e, h, body, cut', log[..|log| - 1], g)
    requires !LastTaken(x, GateOf(e, h), log)
    ensures Leaves(x, e, h, body, cut, log, g)
  {
    var kept := Kept(x, GateOf(e, h), log[..|log| - 1]);
    assert Kept(x, GateOf(e, h), log) == kept;
    WithinMore(kept, body, Reach(cut'), Reach(cut));
  }

  lemma SliceIn(b: seq<Msg>, h: nat, part: seq<Msg>)
    requires IsSlice(b, h, part)
    ensures RecvsIn(b) == RecvsIn(part) && TimeoutsIn(b) == TimeoutsIn(part)
  {
    if b != part {
      assert b[1..] == part;
    }
  }

  lemma WithinSlice(kept: seq<Msg>, b: seq<Msg>, h: nat, body: seq<Msg>, i: nat, j: nat)
    requires i <= j <= |body| && Within(kept, body, i) && IsSlice(b, h, body[i..j])
    ensures Within(kept + b, body, j)
  {
    assert body[..j] == body[..i] + body[i..j];
    InConcat(body[..i], body[i..j]);
    InConcat(kept, b);
    SliceIn(b, h, body[i..j]);
  }

  lemma SlicePackets(body: seq<Msg>, h: nat, i: nat, j: nat)
    requires i <= j <= |body| && OnlyPackets(body, h)
    ensures OnlyPackets(body[i..j], h)
  {
  }

  lemma TakenLeaves(x: Setting, e: End, h: nat, body: seq<Msg>, cut': nat, cut: nat, log: seq<seq<Message<Msg>>>, g: End, p: seq<Msg>)
    requires log != [] && cut' <= cut <= |body| + 1 && Leaves(x, e, h, body, cut', log[..|log| - 1], g) && OnlyPackets(body, h)
    requires p == body[Reach(cut')..Reach(cut)] && IsSlice(Bodies(log[|log| - 1]), h, p) && LastTaken(x, GateOf(e, h), log)
    ensures Leaves(x, e, h, body, cut, log, Applied(x.order, g, Bodies(log[|log| - 1])))
  {
    var kept, b := Kept(x, GateOf(e, h), log[..|log| - 1]), Bodies(log[|log| - 1]);
    assert Kept(x, GateOf(e, h), log) == kept + b;
    WithinSlice(kept, b, h, body, Reach(cut'), Reach(cut));
    AppliedConcat(x.order, e, kept, b);
    AppliedLater(x.order, Applied(x.order, e, kept), b, g.time);
    AppliedFields(x.order, g, b);
    SlicePackets(body, h, Reach(cut'), Reach(cut));
    AppliedHeights(x.order, g, h, b, p);
  }

  /** What a log leaves, up to any point of the queue. */
  lemma {:induction false} LogLeaves(x: Setting, chain: seq<End>, peer: seq<End>, h: nat, body: seq<Msg>, cut: nat, log: seq<seq<Message<Msg>>>)
    requires chain != [] && Ready(x.order, Last(chain), peer, h, body) && Prefix(log, h, body, cut)
    requires x.sender == peer[h] && x.start == Tip(chain)
    ensures var r := SendLog(x.order, chain, peer, log, x.slots);
            && Leaves(x, Last(chain), h, body, cut, log, Last(r.chain))
            && Judged(x, GateOf(Last(chain), h), log, r.accepted)
    decreases |log|
  {
    var e := Last(chain);
    if log == [] {
      assert Applied(x.order, e, []) == e;
    } else {
      var front := log[..|log| - 1];
      var cut' := LastSlice(log, h, body, cut);
      LogLeaves(x, chain, peer, h, body, cut', front);
      LandedBatch(x, chain, peer, log);
      var f, accepted := Last(SendLog(x.order, chain, peer, front, x.slots).chain), SendLog(x.order, chain, peer, front, x.slots).accepted;
      LeavesMore(x, e, peer, h, body, cut', cut, log, f);
      JudgedMore(x, GateOf(e, h), log, accepted);
    }
  }

  lemma JudgedMore(x: Setting, g: Gate, log: seq<seq<Message<Msg>>>, accepted: seq<bool>)
    requires log != [] && Judged(x, g, log[..|log| - 1], accepted)
    ensures Judged(x, g, log, accepted + [LastTaken(x, g, log)])
  {
    assert (accepted + [LastTaken(x, g, log)])[..|log| - 1] == accepted;
  }

  /** The last batch lands where the slots say. */
  lemma LandedBatch(x: Setting, chain: seq<End>, peer: seq<End>, log: seq<seq<Message<Msg>>>)
    requires chain != [] && log != [] && x.start == Tip(chain)
    ensures var before := SendLog(x.order, chain, peer, log[..|log| - 1], x.slots);
            var after, at := SendLog(x.order, chain, peer, log, x.slots), Land(x.start, x.slots, |log|);
            var r := RunTx(x.order, Last(before.chain).(time := at.time), at.height, peer, Bodies(log[|log| - 1]));
            && after.accepted == before.accepted + [r.Some?]
            && Last(after.chain) == if r.Some? then r.value else Last(before.chain).(time := at.time)
  {
    var at := LastLanding(x.order, chain, peer, log, x.slots);
    LandsAt(x.order, chain, peer, log, x.slots);
  }

  // ---- A packet phase ---------------------------------------------------------------------------------

  lemma {:induction false} RecvsInRecvs(q: seq<nat>, h: nat)
    ensures RecvsIn(Recvs(q, h)) == q && TimeoutsIn(Recvs(q, h)) == []
    decreases |q|
  {
    if q != [] {
      assert Recvs(q, h)[0] == Recv(q[0], h) && Recvs(q, h)[1..] == Recvs(q[1..], h);
      RecvsInRecvs(q[1..], h);
      assert q == [q[0]] + q[1..];
    }
  }

  lemma {:induction false} TimeoutsInTimeouts(q: seq<nat>, h: nat)
    ensures TimeoutsIn(Timeouts(q, h)) == q && RecvsIn(Timeouts(q, h)) == []
    decreases |q|
  {
    if q != [] {
      assert Timeouts(q, h)[0] == Timeout(q[0], h) && Timeouts(q, h)[1..] == Timeouts(q[1..], h);
      TimeoutsInTimeouts(q[1..], h);
      assert q == [q[0]] + q[1..];
    }
  }

  lemma BodyIn(self: seq<End>, peer: seq<End>, mine: seq<nat>, theirs: seq<nat>, first: bool)
    requires self != [] && peer != []
    ensures var body := PacketBody(self, peer, mine, theirs, first);
            && OnlyPackets(body, |peer| - 1)
            && RecvsIn(body) == Live(Last(peer), Tip(self), theirs) && TimeoutsIn(body) == Dead(Last(self), Tip(peer), mine)
  {
    var h := |peer| - 1;
    var dead, live := Dead(Last(self), Tip(peer), mine), Live(Last(peer), Tip(self), theirs);
    RecvsInRecvs(live, h);
    TimeoutsInTimeouts(dead, h);
    InConcat(Timeouts(dead, h), Recvs(live, h));
    InConcat(Recvs(live, h), Timeouts(dead, h));
  }

  /** The packets `q` of `sender` that the queries may find pending at `receiver`. */
  ghost predicate PendingFor(order: Order, sender: End, receiver: End, q: seq<nat>) {
    NoDup(q) && forall s :: s in q ==>
      s in sender.commitments && Absent(order, receiver, s) && (order.Ordered? ==> s == receiver.nextRecv)
  }

  lemma FoundPending(order: Order, sender: End, receiver: End, listing: seq<nat>)
    requires Lists(listing, sender.commitments)
    ensures PendingFor(order, sender, receiver, Pending(order, receiver, listing))
  {
    var keep := (s: nat) => IsUnreceived(order, receiver, s);
    FilterNoDup(listing, keep);
    forall s: nat
      ensures s in Filter(listing, keep) <==> s in listing && keep(s)
    {
      FilterMembers(listing, keep, s);
    }
  }

  /** The queue of one chain is ready to be judged. */
  lemma BodyReady(order: Order, self: seq<End>, peer: seq<End>, mine: seq<nat>, theirs: seq<nat>, first: bool)
    requires self != [] && peer != []
    requires PendingFor(order, Last(self), Last(peer), mine) && PendingFor(order, Last(peer), Last(self), theirs)
    ensures Ready(order, Last(self), peer, |peer| - 1, PacketBody(self, peer, mine, theirs, first))
  {
    BodyIn(self, peer, mine, theirs, first);
    LiveDeadMembers(Last(self), Tip(peer), mine);
    LiveDeadMembers(Last(peer), Tip(self), theirs);
  }

  /** How a chain's part of a phase is judged. */
  ghost function SettingOf(order: Order, self: seq<End>, peer: seq<End>, slots: nat -> Slot): Setting
    requires self != [] && peer != []
  {
    Setting(order, Last(peer), Tip(self), slots)
  }

  /** What a chain takes of its part of a phase. */
  ghost function KeptBy(order: Order, self: seq<End>, peer: seq<End>, log: seq<seq<Message<Msg>>>, slots: nat -> Slot): seq<Msg>
    requires self != [] && peer != []
  {
    Kept(SettingOf(order, self, peer, slots), GateOf(Last(self), |peer| - 1), log)
  }

  /**
    One chain's part of a packet phase, for any cut and any gaps: a batch is accepted exactly
    when it is not empty, its proofs can be checked and its messages go through at the block it
    lands in, and the messages of the accepted batches, and nothing else, have been carried out.
   */
  lemma PacketSide(order: Order, self: seq<End>, peer: seq<End>, mine: seq<nat>, theirs: seq<nat>, first: bool,
                   log: seq<seq<Message<Msg>>>, slots: nat -> Slot)
    requires self != [] && peer != []
    requires PendingFor(order, Last(self), Last(peer), mine) && PendingFor(order, Last(peer), Last(self), theirs)
    requires Bodies(Flatten(log)) == PacketQueue(self, peer, mine, theirs, first)
    ensures var r, kept := SendLog(order, self, peer, log, slots), KeptBy(order, self, peer, log, slots);
            && Judged(SettingOf(order, self, peer, slots), GateOf(Last(self), |peer| - 1), log, r.accepted)
            && Last(r.chain) == Applied(order, Last(self), kept).(time := Last(r.chain).time)
            && (forall s :: s in RecvsIn(kept) ==> s in Live(Last(peer), Tip(self), theirs))
            && (forall s :: s in TimeoutsIn(kept) ==> s in Dead(Last(self), Tip(peer), mine))
  {
    var body, h := PacketBody(self, peer, mine, theirs, first), |peer| - 1;
    BodyReady(order, self, peer, mine, theirs, first);
    BodyIn(self, peer, mine, theirs, first);
    var cut := WholeQueue(log, h, body);
    LogLeaves(SettingOf(order, self, peer, slots), self, peer, h, body, cut, log);
    assert body[..Reach(cut)] == body;
  }
}
